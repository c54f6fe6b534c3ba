/**
 The register stream of one fp16 matmul, as the sequence of words the emitter writes,
 and the patch that turns it into the stream for another weight address.
 */
module RegStream {
  import opened IndexArith

  const B16 := 0x1_0000
  const B32 := 0x1_0000_0000
  const B48 := 0x1_0000_0000_0000

  type U16 = x: int | 0 <= x < 0x1_0000
  type U32 = x: int | 0 <= x < 0x1_0000_0000
  type Word = nat

  const CNA: U16 := 0x0201
  const CORE: U16 := 0x0801
  const DPU: U16 := 0x1001
  const RDMA: U16 := 0x2001
  const U28: U16 := 0x0401
  const WEIGHT_REG: U16 := 0x1110

  datatype Entry = Entry(target: U16, reg: U16, val: U32)

  /** Everything a stream depends on but the weight's address. */
  datatype Geometry = Geometry(m: nat, k: nat, n: nat, input: U32, output: U32, coef: U32)
  {
    ghost predicate Valid() { m > 0 && k >= 32 && n >= 32 }
  }

  datatype Job = Job(g: Geometry, weight: U32)

  // ---- sizes of a two byte format ----

  function KEff(k: nat): nat { RoundUp(k, 8) }

  function WeightBytes(k: nat, n: nat): nat { KEff(k) * RoundUp(n, 2) * 2 }

  function EntriesPerRow(k: nat): nat {
    var total := CeilDiv(k, 8);
    total / 4 + if total % 4 == 3 then 1 else CeilDiv(total % 4, 4)
  }

  function TableBytes(n: nat): nat { CeilDiv(n, 8) * 64 + RoundUp(n, 8) * 2 }

  // ---- the words ----

  function Low32(x: int): U32 { x % B32 }

  function Or16(a: U16, b: U16): U16 { ((a as bv16) | (b as bv16)) as int }

  /** hi << 16 | lo, in 32 bits: the low half is lo's, the high half hi's low half or lo's high. */
  function Pack(hi: int, lo: int): U32 {
    Or16(hi % B16, Low32(lo) / B16) * B16 + Low32(lo) % B16
  }

  lemma OrNothing(a: U16)
    ensures Or16(a, 0) == a
  {
    assert (a as bv16) | 0 == a as bv16;
  }

  lemma PackHalves(hi: nat, lo: nat)
    requires lo < B16
    ensures Pack(hi, lo) == hi % B16 * B16 + lo
  {
    hide Or16;
    OrNothing(hi % B16);
    assert Low32(lo) == lo && lo / B16 == 0;
  }

  function Cna(reg: U16, val: int): Entry { Entry(CNA, reg, Low32(val)) }

  function Dpu(reg: U16, val: int): Entry { Entry(DPU, reg, Low32(val)) }

  function Rdma(reg: U16, val: int): Entry { Entry(RDMA, reg, Low32(val)) }

  /** Zeros to registers from, from + 4, ... up to and including last. */
  function Zeros(target: U16, from: int, last: U16): seq<Entry>
    requires 0 <= from
    decreases last + 4 - from
  {
    if from > last then [] else [Entry(target, from, 0)] + Zeros(target, from + 4, last)
  }

  function Pointers(): seq<Entry> {
    [Cna(0x1004, 0xe), Entry(CORE, 0x3004, 0xe), Cna(0x1038, 7), Dpu(0x4004, 0xe), Rdma(0x5004, 0xe)]
  }

  function InputHalf(g: Geometry): seq<Entry>
    requires g.Valid()
  {
    var nPad, surf, wbytes := RoundUp(g.n, 2), EntriesPerRow(g.k), WeightBytes(g.k, g.n);
    [Cna(0x100c, 0x20200120), Cna(0x1010, 0xfff), Cna(0x1014, 9), Cna(0x1018, 0x40000404),
     Cna(0x101c, wbytes), Cna(0x1020, wbytes / nPad), Cna(0x1024, nPad - 1),
     Cna(0x1028, Pack(surf * g.m, KEff(g.k) - 1)), Cna(0x102c, g.m - 1),
     Cna(0x1030, Pack(wbytes / nPad, 0)), Cna(0x1034, g.m - 1),
     Cna(0x1038, 7), Cna(0x103c, Pack(surf, 0)), Cna(0x1040, 0x10000000), Cna(0x1044, Pack(1, surf)),
     Cna(0x1048, 0xb), Cna(0x104c, 0x10001), Cna(0x1050, 0x10001)]
  }

  function WindowHalf(g: Geometry): seq<Entry>
    requires g.Valid()
  {
    [Cna(0x1078, g.m - 1), Cna(0x107c, KEff(g.k) - 1), Cna(0x1080, 0), Cna(0x1084, 0),
     Cna(0x1088, g.input), Cna(0x108c, 0xf000f), Cna(0x1090, g.k / 8), Cna(0x1094, 1),
     Cna(0x1098, RoundUp(g.m, 4)), Cna(0x109c, 0), Cna(0x1100, 0), Cna(0x1104, 0)]
  }

  /** All that comes before the weight address. */
  function Head(g: Geometry): seq<Entry>
    requires g.Valid()
  {
    Pointers() + InputHalf(g) + Zeros(CNA, 0x1054, 0x1074) + WindowHalf(g)
  }

  function CoreStage(g: Geometry): seq<Entry> {
    [Cna(0x1140, 0), Cna(0x1144, 0), Cna(0x118c, 0)]
    + Zeros(U28, 0x2810, 0x2820)
    + [Entry(CORE, 0x3018, 0x10000200), Entry(CORE, 0x301c, Pack(g.m - 1, 0)),
       Entry(CORE, 0x3020, Low32(g.n - 1)), Entry(CORE, 0x3024, 0)]
  }

  function OutputStage(g: Geometry): seq<Entry> {
    [Dpu(0x400c, 0x40000004), Dpu(0x4010, 0xa0000002), Dpu(0x4014, 0), Dpu(0x4018, g.output),
     Dpu(0x401c, 1), Dpu(0x4020, 0), Dpu(0x4024, g.m - 1), Dpu(0x4028, g.n / 4 - 1),
     Dpu(0x402c, g.n - 1), Dpu(0x4030, Pack(g.n - 1, 0x310)), Dpu(0x4034, Pack(g.m - 1, 0)),
     Dpu(0x4038, 0x53), Dpu(0x403c, 0), Dpu(0x4044, 2), Dpu(0x4048, 0x80000000), Dpu(0x404c, 0x7fffffff),
     Dpu(0x4050, 0x23333), Dpu(0x4058, 0x80000000), Dpu(0x405c, 0x7fffffff), Dpu(0x4060, 0x903)]
  }

  function Requant(g: Geometry): seq<Entry> {
    [Dpu(0x406c, 0x80000000), Dpu(0x4070, 0x7fffffff), Dpu(0x4074, 0x80000000), Dpu(0x4078, 0x7fffffff),
     Dpu(0x407c, 0x010041c1), Dpu(0x4080, 0), Dpu(0x4084, 1), Dpu(0x4088, 0x80000000), Dpu(0x408c, 0x7fffffff),
     Dpu(0x4090, 0), Dpu(0x4094, 0), Dpu(0x409c, 0), Dpu(0x40a4, 0x80000000), Dpu(0x40a8, 0x7fffffff),
     Dpu(0x40ac, 0), Dpu(0x40b0, 1), Dpu(0x40b4, 0),
     Dpu(0x40b8, g.n / 4 + 3 - Low32(g.m * g.n) / 4),
     Dpu(0x40bc, 0), Dpu(0x40c0, 0x04440100), Dpu(0x40c8, 0), Dpu(0x40cc, 0), Dpu(0x40d0, 0x0040ffff)]
  }

  function Lut(): seq<Entry> {
    Zeros(DPU, 0x4100, 0x4120) + [Dpu(0x4130, 0)] + Zeros(DPU, 0x4140, 0x4154)
    + [Dpu(0x4160, 0), Dpu(0x4170, 0), Dpu(0x4174, 0)] + Zeros(DPU, 0x4184, 0x4194)
  }

  function CoefFetch(g: Geometry): seq<Entry> {
    [Rdma(0x500c, 0), Rdma(0x5010, g.m - 1), Rdma(0x5014, g.n - 1), Rdma(0x5018, 0), Rdma(0x501c, 0x710),
     Rdma(0x5020, g.coef), Rdma(0x5024, g.coef + TableBytes(g.n)),
     Rdma(0x5028, 0), Rdma(0x502c, 0), Rdma(0x5030, 0), Rdma(0x5034, 0x41), Rdma(0x5038, 0), Rdma(0x5040, 0),
     Rdma(0x5044, 0x40000010), Rdma(0x5048, 0), Rdma(0x504c, 0), Rdma(0x5064, 0), Rdma(0x506c, 0),
     Rdma(0x5078, 0), Rdma(0x507c, 0),
     Cna(0x1008, 0x1d), Entry(CORE, 0x3008, 0x1d), Dpu(0x4008, 0x1d), Rdma(0x5008, 0x1d)]
  }

  /** All that comes after it. */
  function Tail(g: Geometry): seq<Entry> {
    CoreStage(g) + OutputStage(g) + Requant(g) + Lut() + CoefFetch(g)
  }

  /** charsiu_emit_job for the jobs the fp16 unit submits. */
  function Stream(j: Job): seq<Entry>
    requires j.g.Valid()
  {
    Head(j.g) + [Entry(CNA, WEIGHT_REG, j.weight)] + Tail(j.g)
  }

  function Encode(e: Entry): Word { e.target * B48 + e.val * B16 + e.reg }

  function Words(es: seq<Entry>): (ws: seq<Word>)
    ensures |ws| == |es| && forall i :: 0 <= i < |es| ==> ws[i] == Encode(es[i])
  {
    seq(|es|, i requires 0 <= i < |es| => Encode(es[i]))
  }

  /** A word names the weight register: what the patch looks for. */
  predicate NamesWeight(w: Word) { w / B48 == CNA && w % B16 == WEIGHT_REG }

  lemma EncodeNames(e: Entry)
    ensures NamesWeight(Encode(e)) <==> e.target == CNA && e.reg == WEIGHT_REG
  {
    assert Encode(e) == e.target * B48 + (e.val * B16 + e.reg);
    assert e.val * B16 + e.reg < B48;
    assert Encode(e) / B48 == e.target;
    assert Encode(e) == (e.target * B32 + e.val) * B16 + e.reg;
    assert Encode(e) % B16 == e.reg;
  }

  // ---- the weight address is in one word and no other ----

  predicate Clean(es: seq<Entry>) {
    forall i :: 0 <= i < |es| ==> !(es[i].target == CNA && es[i].reg == WEIGHT_REG)
  }

  lemma {:induction false} ZerosClean(target: U16, from: int, last: U16)
    requires 0 <= from && (target != CNA || last < WEIGHT_REG)
    ensures Clean(Zeros(target, from, last))
    ensures |Zeros(target, from, last)| <= if from > last then 0 else (last - from) / 4 + 1
    decreases last + 4 - from
  {
    if from <= last { ZerosClean(target, from + 4, last); }
  }

  lemma HeadClean(g: Geometry)
    requires g.Valid()
    ensures Clean(Head(g)) && |Head(g)| <= 60
  {
    ZerosClean(CNA, 0x1054, 0x1074);
    assert Clean(Pointers());
    assert Clean(InputHalf(g));
    assert Clean(WindowHalf(g));
  }

  lemma CoreClean(g: Geometry)
    ensures Clean(CoreStage(g)) && |CoreStage(g)| <= 16
  {
    ZerosClean(U28, 0x2810, 0x2820);
  }

  lemma OutputClean(g: Geometry)
    ensures Clean(OutputStage(g)) && Clean(Requant(g)) && |OutputStage(g)| + |Requant(g)| <= 50
  {
  }

  lemma LutClean()
    ensures Clean(Lut()) && |Lut()| <= 40
  {
    ZerosClean(DPU, 0x4100, 0x4120);
    ZerosClean(DPU, 0x4140, 0x4154);
    ZerosClean(DPU, 0x4184, 0x4194);
  }

  lemma FetchClean(g: Geometry)
    ensures Clean(CoefFetch(g)) && |CoefFetch(g)| <= 30
  {
  }

  lemma CleanJoin(a: seq<Entry>, b: seq<Entry>, na: nat, nb: nat)
    requires Clean(a) && Clean(b) && |a| <= na && |b| <= nb
    ensures Clean(a + b) && |a + b| <= na + nb
  {
  }

  lemma TailClean(g: Geometry)
    ensures Clean(Tail(g)) && |Tail(g)| <= 136
  {
    CoreClean(g);
    OutputClean(g);
    LutClean();
    FetchClean(g);
    var c, o, r, l, f := CoreStage(g), OutputStage(g), Requant(g), Lut(), CoefFetch(g);
    CleanJoin(o, r, |o|, |r|);
    CleanJoin(c, o, 16, |o|);
    CleanJoin(c + o, r, 16 + |o|, |r|);
    CleanJoin(c + o + r, l, 66, 40);
    CleanJoin(c + o + r + l, f, 106, 30);
  }

  /** es has its one weight word at `at`, holding a. */
  ghost predicate WeightAt(es: seq<Entry>, at: nat, a: U32) {
    && at < |es| && es[at] == Entry(CNA, WEIGHT_REG, a)
    && forall i :: 0 <= i < |es| && i != at ==> !(es[i].target == CNA && es[i].reg == WEIGHT_REG)
  }

  lemma OneBetween(h: seq<Entry>, t: seq<Entry>, a: U32, b: U32)
    requires Clean(h) && Clean(t)
    ensures WeightAt(h + [Entry(CNA, WEIGHT_REG, a)] + t, |h|, a)
    ensures h + [Entry(CNA, WEIGHT_REG, b)] + t == (h + [Entry(CNA, WEIGHT_REG, a)] + t)[|h| := Entry(CNA, WEIGHT_REG, b)]
  {
  }

  /** The weight register is written once, with the weight's address; every other word is
      the same for every address, and a slot of 512 words always holds the stream. */
  lemma OneWeightWord(j: Job, a: U32)
    requires j.g.Valid()
    ensures WeightAt(Stream(j), |Head(j.g)|, j.weight)
    ensures Stream(Job(j.g, a)) == Stream(j)[|Head(j.g)| := Entry(CNA, WEIGHT_REG, a)]
    ensures 0 < |Stream(j)| <= 200
  {
    HeadClean(j.g);
    TailClean(j.g);
    OneBetween(Head(j.g), Tail(j.g), j.weight, a);
  }

  // ---- charsiu_patch_weight_addr ----

  /** The words of a slot with every weight word pointed at a. */
  function Patched(ws: seq<Word>, a: U32): (r: seq<Word>)
    ensures |r| == |ws|
  {
    seq(|ws|, i requires 0 <= i < |ws| => if NamesWeight(ws[i]) then Encode(Entry(CNA, WEIGHT_REG, a)) else ws[i])
  }

  function Hits(ws: seq<Word>): nat {
    if ws == [] then 0 else Hits(ws[..|ws| - 1]) + if NamesWeight(ws[|ws| - 1]) then 1 else 0
  }

  /** `after` is `before` with the n words at base rewritten so far as i. */
  ghost predicate PatchedTo(before: seq<Word>, after: seq<Word>, base: nat, n: nat, a: U32, i: nat) {
    && i <= n && base + n <= |before| == |after|
    && forall q :: 0 <= q < |before| ==>
         after[q] == if base <= q < base + i && NamesWeight(before[q]) then Encode(Entry(CNA, WEIGHT_REG, a)) else before[q]
  }

  lemma PatchedAll(before: seq<Word>, after: seq<Word>, base: nat, n: nat, a: U32)
    requires PatchedTo(before, after, base, n, a, n)
    ensures after[base..base + n] == Patched(before[base..base + n], a)
    ensures after[..base] == before[..base] && after[base + n..] == before[base + n..]
  {
  }

  method PatchWeightAddr(reg: array<Word>, base: nat, n: nat, a: U32) returns (hits: nat)
    requires base + n <= reg.Length
    modifies reg
    ensures reg[base..base + n] == Patched(old(reg[base..base + n]), a)
    ensures hits == Hits(old(reg[base..base + n]))
    ensures reg[..base] == old(reg[..base]) && reg[base + n..] == old(reg[base + n..])
  {
    hits := 0;
    ghost var before := reg[..];
    ghost var ws := reg[base..base + n];
    for i := 0 to n
      invariant hits == Hits(ws[..i])
      invariant PatchedTo(before, reg[..], base, n, a, i)
    {
      assert ws[..i + 1][..i] == ws[..i] && reg[base + i] == ws[i];
      if NamesWeight(reg[base + i]) {
        reg[base + i] := CNA * B48 + a * B16 + WEIGHT_REG;
        hits := hits + 1;
      }
    }
    assert ws[..n] == ws;
    PatchedAll(before, reg[..], base, n, a);
    assert reg[..][base..base + n] == reg[base..base + n] && before[base..base + n] == ws;
    assert reg[..][..base] == reg[..base] && reg[..][base + n..] == reg[base + n..];
  }

  lemma {:induction false} HitsOne(es: seq<Entry>, at: nat, a: U32, k: nat)
    requires WeightAt(es, at, a) && k <= |es|
    ensures Hits(Words(es)[..k]) == if at < k then 1 else 0
  {
    if k > 0 {
      HitsOne(es, at, a, k - 1);
      assert Words(es)[..k][..k - 1] == Words(es)[..k - 1];
      EncodeNames(es[k - 1]);
    }
  }

  /** Patching a stream is emitting it for the other address, with exactly one word hit. */
  lemma PatchIsEmit(j: Job, a: U32)
    requires j.g.Valid()
    ensures Patched(Words(Stream(j)), a) == Words(Stream(Job(j.g, a)))
    ensures Hits(Words(Stream(j))) == 1
  {
    hide Stream, Head, Tail;
    OneWeightWord(j, a);
    var es, at := Stream(j), |Head(j.g)|;
    HitsOne(es, at, j.weight, |es|);
    assert Words(es)[..|es|] == Words(es);
    forall i | 0 <= i < |es| ensures Patched(Words(es), a)[i] == Words(es[at := Entry(CNA, WEIGHT_REG, a)])[i] {
      EncodeNames(es[i]);
    }
  }

  // ---- what the device reads in the words ----

  /** The word programs this register of this unit, with this value. */
  predicate Names(w: Word, target: int, reg: int) { w / 0x1_0000_0000_0000 == target && w % 0x1_0000 == reg }

  function ValueOf(w: Word): int { w / 0x1_0000 % 0x1_0000_0000 }

  /** The register is written once, with val. */
  ghost predicate Sets(ws: seq<Word>, target: int, reg: int, val: int) {
    exists i :: 0 <= i < |ws| && Names(ws[i], target, reg) && ValueOf(ws[i]) == val
                && forall q :: 0 <= q < |ws| && Names(ws[q], target, reg) ==> q == i
  }

  /** A job's addresses, in the registers that carry them: input, weight, output, and the two
      halves of its coefficients. */
  ghost predicate SetsAddresses(ws: seq<Word>, j: Job) {
    && Sets(ws, 0x0201, 0x1088, j.g.input) && Sets(ws, 0x0201, 0x1110, j.weight) && Sets(ws, 0x1001, 0x4018, j.g.output)
    && Sets(ws, 0x2001, 0x5020, j.g.coef)
    && Sets(ws, 0x2001, 0x5024, (j.g.coef + ((j.g.n + 7) / 8 * 64 + (j.g.n + 7) / 8 * 8 * 2)) % 0x1_0000_0000)
  }

  /** Its rows, less one. */
  ghost predicate SetsRows(ws: seq<Word>, m: nat) {
    && Sets(ws, 0x0201, 0x102c, (m - 1) % 0x1_0000_0000) && Sets(ws, 0x0201, 0x1034, (m - 1) % 0x1_0000_0000)
    && Sets(ws, 0x0201, 0x1078, (m - 1) % 0x1_0000_0000) && Sets(ws, 0x1001, 0x4024, (m - 1) % 0x1_0000_0000)
    && Sets(ws, 0x2001, 0x5010, (m - 1) % 0x1_0000_0000)
    && Sets(ws, 0x0801, 0x301c, (m - 1) % 0x1_0000 * 0x1_0000) && Sets(ws, 0x1001, 0x4034, (m - 1) % 0x1_0000 * 0x1_0000)
    && Sets(ws, 0x0201, 0x1098, (m + 3) / 4 * 4 % 0x1_0000_0000)
  }

  /** Its channels, less one, plain or padded to two, and in fours. */
  ghost predicate SetsChannels(ws: seq<Word>, m: nat, n: nat) {
    && Sets(ws, 0x1001, 0x40b8, (n / 4 + 3 - m * n % 0x1_0000_0000 / 4) % 0x1_0000_0000)
    && Sets(ws, 0x0201, 0x1024, ((n + 1) / 2 * 2 - 1) % 0x1_0000_0000)
    && Sets(ws, 0x0801, 0x3020, (n - 1) % 0x1_0000_0000) && Sets(ws, 0x1001, 0x402c, (n - 1) % 0x1_0000_0000)
    && Sets(ws, 0x2001, 0x5014, (n - 1) % 0x1_0000_0000) && Sets(ws, 0x1001, 0x4028, (n / 4 - 1) % 0x1_0000_0000)
    && Sets(ws, 0x1001, 0x4030, (n - 1) % 0x1_0000 * 0x1_0000 + 0x310)
  }

  /** Its K, padded to eight; the bytes of a channel's weights and of all of them; and the
      entries of 32 a row of the input takes. */
  ghost predicate SetsDepth(ws: seq<Word>, m: nat, k: nat, n: nat) {
    && Sets(ws, 0x0201, 0x107c, ((k + 7) / 8 * 8 - 1) % 0x1_0000_0000) && Sets(ws, 0x0201, 0x1090, k / 8 % 0x1_0000_0000)
    && Sets(ws, 0x0201, 0x101c, (k + 7) / 8 * 8 * ((n + 1) / 2 * 2) * 2 % 0x1_0000_0000)
    && Sets(ws, 0x0201, 0x1020, (k + 7) / 8 * 8 * 2 % 0x1_0000_0000)
    && Sets(ws, 0x0201, 0x1030, (k + 7) / 8 * 8 * 2 % 0x1_0000 * 0x1_0000)
    && Sets(ws, 0x0201, 0x103c, (k + 31) / 32 % 0x1_0000 * 0x1_0000)
    && (k <= 0x1_0000 ==> Sets(ws, 0x0201, 0x1028, (k + 31) / 32 * m % 0x1_0000 * 0x1_0000 + ((k + 7) / 8 * 8 - 1)))
    && (k <= 0x1_0000 ==> Sets(ws, 0x0201, 0x1044, 0x1_0000 + (k + 31) / 32))
  }

  ghost predicate Programs(ws: seq<Word>, j: Job) {
    SetsAddresses(ws, j) && SetsRows(ws, j.g.m) && SetsChannels(ws, j.g.m, j.g.n) && SetsDepth(ws, j.g.m, j.g.k, j.g.n)
  }

  lemma Decoded(e: Entry)
    ensures forall t, r :: Names(Encode(e), t, r) <==> e.target == t && e.reg == r
    ensures ValueOf(Encode(e)) == e.val
  {
    assert Encode(e) == e.target * B48 + (e.val * B16 + e.reg);
    assert e.val * B16 + e.reg < B48;
    assert Encode(e) / B48 == e.target;
    assert Encode(e) == (e.target * B32 + e.val) * B16 + e.reg;
    assert Encode(e) % B16 == e.reg && Encode(e) / B16 == e.target * B32 + e.val;
  }

  /** No register of this unit from lo to hi. */
  predicate Avoids(es: seq<Entry>, t: int, lo: int, hi: int) {
    forall i :: 0 <= i < |es| ==> !(es[i].target == t && lo <= es[i].reg <= hi)
  }

  /** Each of them at most once. */
  predicate Apart(es: seq<Entry>, t: int, lo: int, hi: int) {
    forall i, q :: 0 <= q < i < |es| && es[i].target == es[q].target == t && lo <= es[i].reg <= hi ==> es[i].reg != es[q].reg
  }

  function Joined(segs: seq<seq<Entry>>): seq<Entry> {
    if segs == [] then [] else segs[0] + Joined(segs[1..])
  }

  lemma {:induction false} JoinedAvoids(segs: seq<seq<Entry>>, t: int, lo: int, hi: int)
    requires forall q :: 0 <= q < |segs| ==> Avoids(segs[q], t, lo, hi)
    ensures Avoids(Joined(segs), t, lo, hi)
  {
    if segs != [] { JoinedAvoids(segs[1..], t, lo, hi); }
  }

  /** Only this entry of es is for its register. */
  predicate Only(es: seq<Entry>, at: int) {
    0 <= at < |es| && forall q :: 0 <= q < |es| && es[q].target == es[at].target && es[q].reg == es[at].reg ==> q == at
  }

  /** An entry of the one part that has such registers is the only one of its own in the whole. */
  lemma {:induction false} OnlyHere(segs: seq<seq<Entry>>, k: nat, i: nat, t: int, lo: int, hi: int) returns (at: nat)
    requires k < |segs| && i < |segs[k]| && segs[k][i].target == t && lo <= segs[k][i].reg <= hi
    requires Apart(segs[k], t, lo, hi) && forall q :: 0 <= q < |segs| && q != k ==> Avoids(segs[q], t, lo, hi)
    ensures Only(Joined(segs), at) && Joined(segs)[at] == segs[k][i]
  {
    if k == 0 {
      JoinedAvoids(segs[1..], t, lo, hi);
      at := i;
    } else {
      at := OnlyHere(segs[1..], k - 1, i, t, lo, hi);
      at := at + |segs[0]|;
    }
  }

  lemma OnlySets(es: seq<Entry>, at: nat)
    requires Only(es, at)
    ensures Sets(Words(es), es[at].target, es[at].reg, es[at].val)
  {
    forall q | 0 <= q < |es| ensures Names(Words(es)[q], es[at].target, es[at].reg) <==> q == at { Decoded(es[q]); }
    Decoded(es[at]);
  }

  /** The stream's parts, in order. */
  function Parts(j: Job): (ps: seq<seq<Entry>>)
    requires j.g.Valid()
    ensures |ps| == 10
  {
    [Pointers(), InputHalf(j.g), Zeros(CNA, 0x1054, 0x1074), WindowHalf(j.g), [Entry(CNA, WEIGHT_REG, j.weight)],
     CoreStage(j.g), OutputStage(j.g), Requant(j.g), Lut(), CoefFetch(j.g)]
  }

  lemma JoinedFive(a: seq<Entry>, b: seq<Entry>, c: seq<Entry>, d: seq<Entry>, e: seq<Entry>)
    ensures Joined([a, b, c, d, e]) == a + b + c + d + e
  {
    var ps := [a, b, c, d, e];
    assert ps[1..] == [b, c, d, e] && ps[1..][1..] == [c, d, e] && [c, d, e][1..] == [d, e] && [d, e][1..] == [e];
    assert Joined([e]) == e && Joined([d, e]) == d + e && Joined([c, d, e]) == c + (d + e);
    assert Joined([b, c, d, e]) == b + (c + (d + e));
  }

  lemma {:induction false} JoinedBoth(x: seq<seq<Entry>>, y: seq<seq<Entry>>)
    ensures Joined(x + y) == Joined(x) + Joined(y)
  {
    if x == [] {
      assert x + y == y;
    } else {
      assert (x + y)[1..] == x[1..] + y;
      JoinedBoth(x[1..], y);
    }
  }

  lemma PartsJoin(j: Job)
    requires j.g.Valid()
    ensures Joined(Parts(j)) == Stream(j)
  {
    hide Pointers, InputHalf, Zeros, WindowHalf, CoreStage, OutputStage, Requant, Lut, CoefFetch, Joined;
    var g := j.g;
    var w := [Entry(CNA, WEIGHT_REG, j.weight)];
    JoinedFive(Pointers(), InputHalf(g), Zeros(CNA, 0x1054, 0x1074), WindowHalf(g), w);
    JoinedFive(CoreStage(g), OutputStage(g), Requant(g), Lut(), CoefFetch(g));
    var x := [Pointers(), InputHalf(g), Zeros(CNA, 0x1054, 0x1074), WindowHalf(g), w];
    var y := [CoreStage(g), OutputStage(g), Requant(g), Lut(), CoefFetch(g)];
    JoinedBoth(x, y);
    assert Parts(j) == x + y;
  }

  /** The register an entry of part k is for is written by that entry alone. */
  lemma SetBy(j: Job, k: nat, i: nat, t: int, lo: int, hi: int)
    requires j.g.Valid() && k < 10 && i < |Parts(j)[k]| && Parts(j)[k][i].target == t && lo <= Parts(j)[k][i].reg <= hi
    requires Apart(Parts(j)[k], t, lo, hi) && forall q :: 0 <= q < 10 && q != k ==> Avoids(Parts(j)[q], t, lo, hi)
    ensures Sets(Words(Stream(j)), t, Parts(j)[k][i].reg, Parts(j)[k][i].val)
  {
    hide Parts, Stream, Sets, Words;
    PartsJoin(j);
    var at := OnlyHere(Parts(j), k, i, t, lo, hi);
    OnlySets(Joined(Parts(j)), at);
  }

  lemma {:induction false} ZerosSpan(target: U16, from: int, last: U16)
    requires 0 <= from
    ensures forall i :: 0 <= i < |Zeros(target, from, last)| ==>
              Zeros(target, from, last)[i].target == target && from <= Zeros(target, from, last)[i].reg <= last
    decreases last + 4 - from
  {
    if from <= last { ZerosSpan(target, from + 4, last); }
  }

  lemma LutSpan()
    ensures forall i :: 0 <= i < |Lut()| ==> Lut()[i].target == DPU && 0x4100 <= Lut()[i].reg <= 0x4194
  {
    ZerosSpan(DPU, 0x4100, 0x4120);
    ZerosSpan(DPU, 0x4140, 0x4154);
    ZerosSpan(DPU, 0x4184, 0x4194);
  }

  /** Registers that lie in one part's block of them. */
  predicate Block(k: nat, t: int, lo: int, hi: int) {
    && lo <= hi
    && match k
       case 1 => t == CNA && ((0x100c <= lo && hi <= 0x1034) || (0x103c <= lo && hi <= 0x1050))
       case 3 => t == CNA && 0x1078 <= lo && hi <= 0x1104
       case 4 => t == CNA && lo == hi == 0x1110
       case 5 => t == CORE && 0x3018 <= lo && hi <= 0x3024
       case 6 => t == DPU && 0x400c <= lo && hi <= 0x4060
       case 7 => t == DPU && 0x406c <= lo && hi <= 0x40d0
       case 9 => t == RDMA && 0x500c <= lo && hi <= 0x507c
       case _ => false
  }

  lemma PointersFar(k: nat, t: int, lo: int, hi: int)
    requires Block(k, t, lo, hi)
    ensures Avoids(Pointers(), t, lo, hi)
  {
  }

  lemma InputFar(g: Geometry, k: nat, t: int, lo: int, hi: int)
    requires Block(k, t, lo, hi) && g.Valid()
    ensures if k == 1 then Apart(InputHalf(g), t, lo, hi) else Avoids(InputHalf(g), t, lo, hi)
  {
    hide Pack, WeightBytes, KEff, EntriesPerRow, Low32, RoundUp;
  }

  lemma WindowFar(g: Geometry, k: nat, t: int, lo: int, hi: int)
    requires Block(k, t, lo, hi) && g.Valid()
    ensures if k == 3 then Apart(WindowHalf(g), t, lo, hi) else Avoids(WindowHalf(g), t, lo, hi)
  {
    hide KEff, Low32, RoundUp;
  }

  lemma CoreFar(g: Geometry, k: nat, t: int, lo: int, hi: int)
    requires Block(k, t, lo, hi)
    ensures if k == 5 then Apart(CoreStage(g), t, lo, hi) else Avoids(CoreStage(g), t, lo, hi)
  {
    hide Pack, Low32;
    ZerosSpan(U28, 0x2810, 0x2820);
  }

  lemma OutputFar(g: Geometry, k: nat, t: int, lo: int, hi: int)
    requires Block(k, t, lo, hi)
    ensures if k == 6 then Apart(OutputStage(g), t, lo, hi) else Avoids(OutputStage(g), t, lo, hi)
  {
    hide Pack, Low32;
  }

  lemma RequantFar(g: Geometry, k: nat, t: int, lo: int, hi: int)
    requires Block(k, t, lo, hi)
    ensures if k == 7 then Apart(Requant(g), t, lo, hi) else Avoids(Requant(g), t, lo, hi)
  {
    hide Low32;
  }

  lemma FetchFar(g: Geometry, k: nat, t: int, lo: int, hi: int)
    requires Block(k, t, lo, hi)
    ensures if k == 9 then Apart(CoefFetch(g), t, lo, hi) else Avoids(CoefFetch(g), t, lo, hi)
  {
    hide TableBytes, Low32;
  }

  /** A part's block of registers is in no other part, and in it each is written once. */
  lemma Elsewhere(j: Job, k: nat, t: int, lo: int, hi: int)
    requires j.g.Valid() && Block(k, t, lo, hi)
    ensures k < 10 && Apart(Parts(j)[k], t, lo, hi) && forall q :: 0 <= q < 10 && q != k ==> Avoids(Parts(j)[q], t, lo, hi)
  {
    hide Pointers, InputHalf, Zeros, WindowHalf, CoreStage, OutputStage, Requant, Lut, CoefFetch;
    ZerosSpan(CNA, 0x1054, 0x1074);
    LutSpan();
    PointersFar(k, t, lo, hi);
    InputFar(j.g, k, t, lo, hi);
    WindowFar(j.g, k, t, lo, hi);
    CoreFar(j.g, k, t, lo, hi);
    OutputFar(j.g, k, t, lo, hi);
    RequantFar(j.g, k, t, lo, hi);
    FetchFar(j.g, k, t, lo, hi);
  }

  /** So the register an entry of a block is for is written by that entry alone. */
  lemma SetHere(j: Job, k: nat, i: nat, reg: int)
    requires j.g.Valid() && k < 10 && i < |Parts(j)[k]|
    requires Parts(j)[k][i].reg == reg && Block(k, Parts(j)[k][i].target, reg, reg)
    ensures Sets(Words(Stream(j)), Parts(j)[k][i].target, reg, Parts(j)[k][i].val)
  {
    hide Parts, Stream, Sets, Words, Block;
    var t := Parts(j)[k][i].target;
    Elsewhere(j, k, t, reg, reg);
    SetBy(j, k, i, t, reg, reg);
  }

  // One lemma a part: what its entries say.

  lemma Whole(x: U32)
    ensures Low32(x) == x
  {
  }

  lemma InputSets(j: Job)
    requires j.g.Valid()
    ensures var ws, g := Words(Stream(j)), j.g;
            && Sets(ws, 0x0201, 0x101c, Low32(WeightBytes(g.k, g.n)))
            && Sets(ws, 0x0201, 0x1020, Low32(WeightBytes(g.k, g.n) / RoundUp(g.n, 2)))
            && Sets(ws, 0x0201, 0x1024, Low32(RoundUp(g.n, 2) - 1))
            && Sets(ws, 0x0201, 0x102c, Low32(g.m - 1)) && Sets(ws, 0x0201, 0x1034, Low32(g.m - 1))
  {
    hide Sets, Words, Stream, Parts, Pack, WeightBytes, EntriesPerRow, KEff, RoundUp, Low32, CeilDiv;
    PartIs(j);
    SetHere(j, 1, 4, 0x101c);
    SetHere(j, 1, 5, 0x1020);
    SetHere(j, 1, 6, 0x1024);
    SetHere(j, 1, 8, 0x102c);
    SetHere(j, 1, 10, 0x1034);
  }

  lemma PackedSets(j: Job)
    requires j.g.Valid()
    ensures var ws, g := Words(Stream(j)), j.g;
            && Sets(ws, 0x0201, 0x1028, Pack(EntriesPerRow(g.k) * g.m, KEff(g.k) - 1))
            && Sets(ws, 0x0201, 0x1030, Pack(WeightBytes(g.k, g.n) / RoundUp(g.n, 2), 0))
            && Sets(ws, 0x0201, 0x103c, Pack(EntriesPerRow(g.k), 0))
            && Sets(ws, 0x0201, 0x1044, Pack(1, EntriesPerRow(g.k)))
  {
    hide Sets, Words, Stream, Parts, Pack, WeightBytes, EntriesPerRow, KEff, RoundUp, Low32, CeilDiv;
    PartIs(j);
    Whole(Pack(EntriesPerRow(j.g.k) * j.g.m, KEff(j.g.k) - 1));
    SetHere(j, 1, 7, 0x1028);
    Whole(Pack(WeightBytes(j.g.k, j.g.n) / RoundUp(j.g.n, 2), 0));
    SetHere(j, 1, 9, 0x1030);
    Whole(Pack(EntriesPerRow(j.g.k), 0));
    SetHere(j, 1, 12, 0x103c);
    Whole(Pack(1, EntriesPerRow(j.g.k)));
    SetHere(j, 1, 14, 0x1044);
  }

  lemma PartIs(j: Job)
    requires j.g.Valid()
    ensures Parts(j)[1] == InputHalf(j.g) && Parts(j)[3] == WindowHalf(j.g) && Parts(j)[4] == [Entry(CNA, WEIGHT_REG, j.weight)]
    ensures Parts(j)[5] == CoreStage(j.g) && Parts(j)[6] == OutputStage(j.g)
    ensures Parts(j)[7] == Requant(j.g) && Parts(j)[9] == CoefFetch(j.g)
  {
  }

  lemma WindowSets(j: Job)
    requires j.g.Valid()
    ensures var ws, g := Words(Stream(j)), j.g;
            && Sets(ws, 0x0201, 0x1078, Low32(g.m - 1)) && Sets(ws, 0x0201, 0x107c, Low32(KEff(g.k) - 1))
            && Sets(ws, 0x0201, 0x1088, g.input) && Sets(ws, 0x0201, 0x1090, Low32(g.k / 8))
            && Sets(ws, 0x0201, 0x1098, Low32(RoundUp(g.m, 4))) && Sets(ws, 0x0201, 0x1110, j.weight)
  {
    hide Sets, Words, Stream, Parts, KEff, RoundUp, Low32, CeilDiv;
    PartIs(j);
    SetHere(j, 3, 0, 0x1078);
    SetHere(j, 3, 1, 0x107c);
    Whole(j.g.input);
    SetHere(j, 3, 4, 0x1088);
    SetHere(j, 3, 6, 0x1090);
    SetHere(j, 3, 8, 0x1098);
    SetHere(j, 4, 0, 0x1110);
  }

  lemma CoreSets(j: Job)
    requires j.g.Valid()
    ensures Sets(Words(Stream(j)), 0x0801, 0x301c, Pack(j.g.m - 1, 0))
    ensures Sets(Words(Stream(j)), 0x0801, 0x3020, Low32(j.g.n - 1))
  {
    hide Sets, Words, Stream, Parts, Pack, Low32;
    PartIs(j);
    var n := |CoreStage(j.g)|;
    SetHere(j, 5, n - 3, 0x301c);
    SetHere(j, 5, n - 2, 0x3020);
  }

  lemma OutputSets(j: Job)
    requires j.g.Valid()
    ensures var ws, g := Words(Stream(j)), j.g;
            && Sets(ws, 0x1001, 0x4018, g.output) && Sets(ws, 0x1001, 0x4024, Low32(g.m - 1))
            && Sets(ws, 0x1001, 0x4028, Low32(g.n / 4 - 1)) && Sets(ws, 0x1001, 0x402c, Low32(g.n - 1))
            && Sets(ws, 0x1001, 0x4030, Pack(g.n - 1, 0x310)) && Sets(ws, 0x1001, 0x4034, Pack(g.m - 1, 0))
  {
    hide Sets, Words, Stream, Parts, Pack, Low32;
    PartIs(j);
    Whole(j.g.output);
    SetHere(j, 6, 3, 0x4018);
    SetHere(j, 6, 6, 0x4024);
    SetHere(j, 6, 7, 0x4028);
    SetHere(j, 6, 8, 0x402c);
    Whole(Pack(j.g.n - 1, 0x310));
    SetHere(j, 6, 9, 0x4030);
    Whole(Pack(j.g.m - 1, 0));
    SetHere(j, 6, 10, 0x4034);
  }

  lemma SurfaceSets(j: Job)
    requires j.g.Valid()
    ensures Sets(Words(Stream(j)), 0x1001, 0x40b8, Low32(j.g.n / 4 + 3 - Low32(j.g.m * j.g.n) / 4))
  {
    hide Sets, Words, Stream, Parts, Low32;
    PartIs(j);
    SetHere(j, 7, 17, 0x40b8);
  }

  lemma FetchSets(j: Job)
    requires j.g.Valid()
    ensures Sets(Words(Stream(j)), 0x2001, 0x5010, Low32(j.g.m - 1)) && Sets(Words(Stream(j)), 0x2001, 0x5014, Low32(j.g.n - 1))
  {
    hide Sets, Words, Stream, Parts, TableBytes, Low32;
    PartIs(j);
    SetHere(j, 9, 1, 0x5010);
    SetHere(j, 9, 2, 0x5014);
  }

  lemma CoefSets(j: Job)
    requires j.g.Valid()
    ensures Sets(Words(Stream(j)), 0x2001, 0x5020, j.g.coef)
    ensures Sets(Words(Stream(j)), 0x2001, 0x5024, Low32(j.g.coef + TableBytes(j.g.n)))
  {
    hide Sets, Words, Stream, Parts, TableBytes, Low32;
    PartIs(j);
    Whole(j.g.coef);
    SetHere(j, 9, 5, 0x5020);
    SetHere(j, 9, 6, 0x5024);
  }

  /** The sizes, in plain arithmetic. */
  lemma SizesAre(k: nat, n: nat)
    requires k > 0 && n > 0
    ensures KEff(k) == (k + 7) / 8 * 8 && RoundUp(n, 2) == (n + 1) / 2 * 2 && EntriesPerRow(k) == (k + 31) / 32
    ensures WeightBytes(k, n) == (k + 7) / 8 * 8 * ((n + 1) / 2 * 2) * 2
    ensures WeightBytes(k, n) / RoundUp(n, 2) == (k + 7) / 8 * 8 * 2
  {
    hide CeilDiv, WeightBytes, EntriesPerRow;
    Rounded(k, 8);
    Rounded(n, 2);
    EntriesAre(k);
    BytesAre(k, n);
  }

  lemma Rounded(x: nat, a: nat)
    requires a > 0
    ensures RoundUp(x, a) == (x + a - 1) / a * a
  {
  }

  lemma EntriesAre(k: nat)
    requires k > 0
    ensures EntriesPerRow(k) == (k + 31) / 32
  {
    var t := CeilDiv(k, 8);
    assert t == (k + 7) / 8;
    assert EntriesPerRow(k) == (t + 3) / 4;
  }

  lemma BytesAre(k: nat, n: nat)
    requires n > 0
    ensures WeightBytes(k, n) == KEff(k) * RoundUp(n, 2) * 2 && WeightBytes(k, n) / RoundUp(n, 2) == KEff(k) * 2
  {
    hide KEff, RoundUp, CeilDiv;
    var ke, np := KEff(k), RoundUp(n, 2);
    assert ke * np * 2 == np * (ke * 2);
    DivMod(np, ke * 2, 0);
  }

  lemma RowWords(j: Job)
    requires j.g.Valid()
    ensures SetsRows(Words(Stream(j)), j.g.m)
  {
    hide Sets, Words, Stream, Pack;
    InputSets(j);
    WindowSets(j);
    CoreSets(j);
    OutputSets(j);
    FetchSets(j);
    PackHalves(j.g.m - 1, 0);
    assert RoundUp(j.g.m, 4) == (j.g.m + 3) / 4 * 4;
  }

  lemma ChannelWords(j: Job)
    requires j.g.Valid()
    ensures SetsChannels(Words(Stream(j)), j.g.m, j.g.n)
  {
    hide Sets, Words, Stream, Pack, WeightBytes, EntriesPerRow, KEff, RoundUp, CeilDiv;
    SizesAre(j.g.k, j.g.n);
    InputSets(j);
    SurfaceSets(j);
    CoreSets(j);
    OutputSets(j);
    FetchSets(j);
    PackHalves(j.g.n - 1, 0x310);
  }

  lemma DepthWords(j: Job)
    requires j.g.Valid()
    ensures SetsDepth(Words(Stream(j)), j.g.m, j.g.k, j.g.n)
  {
    hide Sets, Words, Stream, Pack, WeightBytes, EntriesPerRow, KEff, RoundUp, CeilDiv;
    SizesAre(j.g.k, j.g.n);
    InputSets(j);
    WindowSets(j);
    PackedWords(j);
  }

  lemma PackedWords(j: Job)
    requires j.g.Valid()
    ensures var ws, k, m := Words(Stream(j)), j.g.k, j.g.m;
            && Sets(ws, 0x0201, 0x1030, (k + 7) / 8 * 8 * 2 % 0x1_0000 * 0x1_0000)
            && Sets(ws, 0x0201, 0x103c, (k + 31) / 32 % 0x1_0000 * 0x1_0000)
            && (k <= 0x1_0000 ==> Sets(ws, 0x0201, 0x1028, (k + 31) / 32 * m % 0x1_0000 * 0x1_0000 + ((k + 7) / 8 * 8 - 1)))
            && (k <= 0x1_0000 ==> Sets(ws, 0x0201, 0x1044, 0x1_0000 + (k + 31) / 32))
  {
    hide Sets, Words, Stream, Pack, WeightBytes, EntriesPerRow, KEff, RoundUp, CeilDiv;
    var g := j.g;
    SizesAre(g.k, g.n);
    PackedSets(j);
    PackHalves((g.k + 7) / 8 * 8 * 2, 0);
    PackHalves((g.k + 31) / 32, 0);
    if g.k <= 0x1_0000 {
      PackHalves((g.k + 31) / 32 * g.m, (g.k + 7) / 8 * 8 - 1);
      PackHalves(1, (g.k + 31) / 32);
    }
  }

  /** For every job the words say its addresses, its rows, its channels and its K. */
  lemma StreamPrograms(j: Job)
    requires j.g.Valid()
    ensures Programs(Words(Stream(j)), j)
  {
    hide Sets, Words, Stream, SetsRows, SetsChannels, SetsDepth;
    WindowSets(j);
    OutputSets(j);
    CoefSets(j);
    assert TableBytes(j.g.n) == (j.g.n + 7) / 8 * 64 + (j.g.n + 7) / 8 * 8 * 2;
    RowWords(j);
    ChannelWords(j);
    DepthWords(j);
  }

  // ---- the emitter ----

  /** Write a stream into a slot of max words, or report that it would not fit. */
  method EmitJob(j: Job, reg: array<Word>, base: nat, max: nat) returns (n: nat)
    requires j.g.Valid() && base + max <= reg.Length
    modifies reg
    ensures n == if |Stream(j)| <= max then |Stream(j)| else 0
    ensures n != 0 ==> reg[base..base + n] == Words(Stream(j)) && Programs(reg[base..base + n], j)
    ensures reg[..base] == old(reg[..base]) && reg[base + max..] == old(reg[base + max..])
  {
    hide Stream, Programs;
    StreamPrograms(j);
    n := EmitAll(Stream(j), reg, base, max);
  }

  method EmitAll(es: seq<Entry>, reg: array<Word>, base: nat, max: nat) returns (n: nat)
    requires base + max <= reg.Length
    modifies reg
    ensures n == if |es| <= max then |es| else 0
    ensures n != 0 ==> reg[base..base + n] == Words(es)
    ensures reg[..base] == old(reg[..base]) && reg[base + max..] == old(reg[base + max..])
  {
    n := 0;
    for i := 0 to |es|
      invariant n == if i <= max then i else max + 1
      invariant n <= max ==> reg[base..base + n] == Words(es)[..n]
      invariant reg[..base] == old(reg[..base]) && reg[base + max..] == old(reg[base + max..])
    {
      n := Emit(reg, base, max, n, es[i]);
    }
    if n > max { n := 0; }
  }

  /** One register write; past the end it only marks the stream as too long. */
  method Emit(reg: array<Word>, base: nat, max: nat, n: nat, e: Entry) returns (n': nat)
    requires base + max <= reg.Length && n <= max + 1
    modifies reg
    ensures n' == if n >= max then max + 1 else n + 1
    ensures n < max ==> reg[base..base + n'] == old(reg[base..base + n]) + [Encode(e)]
    ensures reg[..base] == old(reg[..base]) && reg[base + max..] == old(reg[base + max..])
  {
    if n >= max {
      return max + 1;
    }
    reg[base + n] := Encode(e);
    n' := n + 1;
  }
}
