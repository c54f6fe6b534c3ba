/**
 A layer of attention on two pairs of fp16 units: the heads in groups, one group's softmax
 under the next group's scores, every group's values collected one iteration later.
 */
module AttnRing {
  import opened IndexArith
  import opened UnitProtocol

  datatype Option<+T> = None | Some(value: T)

  type Score(!new, 0)
  type Answer(!new, 0)

  /** What the hardware computes of one row: a head's scores against a kv head's keys, and
      their softmax against its values. */
  datatype Layer = Layer(gqa: nat, score: (nat, nat, nat) -> Score, value: (nat, nat, Score) -> Answer)
  {
    ghost predicate Valid() { gqa > 0 }

    function ScoreOf(row: nat, h: nat): Score
      requires gqa > 0
    {
      score(row, h, h / gqa)
    }

    /** Attention for one row and head. */
    function Attend(row: nat, h: nat): Answer
      requires gqa > 0
    {
      value(row, h / gqa, ScoreOf(row, h))
    }

    /** The scores op of head h for the m rows from rb. */
    function ScoreOp(rb: nat, m: nat, h: nat): (r: seq<Score>)
      requires gqa > 0
      ensures |r| == m && forall q :: 0 <= q < m ==> r[q] == ScoreOf(rb + q, h)
    {
      seq(m, q requires 0 <= q < m => ScoreOf(rb + q, h))
    }

    /** The values op of head h over those scores, wherever they are read from. */
    function ValueOp(rb: nat, h: nat, x: seq<Score>): (r: seq<Answer>)
      requires gqa > 0
      ensures |r| == |x| && forall q :: 0 <= q < |x| ==> r[q] == value(rb + q, h / gqa, x[q])
    {
      seq(|x|, q requires 0 <= q < |x| => value(rb + q, h / gqa, x[q]))
    }
  }

  /** One unit as its caller sees it: a group in flight, and its answers while they are held. */
  class Handle<T(!new)> {
    var inflight: bool
    var held: bool
    var flying: seq<T>
    var answers: seq<T>
    var abandoned: nat
    var submits: nat

    function Now(): Status
      reads this
    {
      Status(inflight, held, |flying|, |answers|)
    }

    constructor ()
      ensures !inflight && !held && abandoned == submits == 0
    {
      inflight, held, flying, answers, abandoned, submits := false, false, [], [], 0, 0;
    }

    /** A group still in flight is waited out and thrown away; an empty group is refused. */
    method Submit(ops: seq<T>) returns (ok: bool)
      modifies this
      ensures abandoned == old(abandoned) + Count(old(inflight)) && submits == old(submits) + Count(ok)
      ensures Submits(old(Now()), Now(), |ops|, ok) && (ok ==> flying == ops)
    {
      if inflight {
        inflight, held, abandoned := false, false, abandoned + 1;
      }
      held := false;
      ok := *;
      ok := ok && ops != [];
      if ok {
        inflight, flying, submits := true, ops, submits + 1;
      }
    }

    method Wait(lend: bool) returns (ok: bool)
      modifies this
      ensures abandoned == old(abandoned) && submits == old(submits)
      ensures Waits(old(Now()), Now(), lend, ok) && (ok ==> answers == old(flying))
    {
      if !inflight {
        return false;
      }
      inflight, answers := false, flying;
      ok := *;
      held := *;
      if ok { held := lend; }
    }

    /** An answer can be read only while it is held. */
    function OutW(i: nat): Option<T>
      reads this
    {
      if Now().Readable(i) then Some(answers[i]) else None
    }

    method PoisonAndRelease()
      modifies this
      ensures Releases(old(Now()), Now()) && flying == old(flying) && abandoned == old(abandoned) && submits == old(submits)
    {
      held := false;
    }
  }

  function Count(b: bool): nat { if b then 1 else 0 }

  // ---- the groups ----

  const WIDE := 0x1_0000_0000

  /** Heads in group g as the code computes it, in 32 unsigned bits: min(H - g * gh, gh). */
  function GroupHeads(H: nat, gh: nat, g: nat): nat {
    var left := (H - g * gh) % WIDE;
    if left < gh then left else gh
  }

  function PerGroup(H: nat, G: nat): nat
    requires G > 0
  {
    CeilDiv(H, G)
  }

  /** Every group is nonempty and lies inside the heads, and together they are all of them. */
  ghost predicate Partition(H: nat, G: nat)
    requires G > 0
  {
    forall g :: 0 <= g < G ==> GroupFits(H, PerGroup(H, G), G, g)
  }

  function GroupEnd(H: nat, gh: nat, g: nat): nat { g * gh + GroupHeads(H, gh, g) }

  /** The groups are a partition exactly when the last one starts inside the heads. */
  lemma GroupsPartition(H: nat, G: nat)
    requires 0 < H < WIDE && 0 < G < WIDE
    ensures Partition(H, G) <==> (G - 1) * PerGroup(H, G) < H
  {
    hide CeilDiv;
    if (G - 1) * PerGroup(H, G) < H {
      forall g | 0 <= g < G ensures GroupFits(H, PerGroup(H, G), G, g) { OneGroup(H, G, g); }
    } else if Partition(H, G) {
      PartitionFits(H, G, G - 1);
      assert false;
    }
  }

  lemma PartitionFits(H: nat, G: nat, g: nat)
    requires g < G && Partition(H, G)
    ensures GroupFits(H, PerGroup(H, G), G, g)
  {
  }

  ghost predicate GroupFits(H: nat, gh: nat, G: nat, g: nat) {
    && GroupHeads(H, gh, g) > 0 && GroupEnd(H, gh, g) <= H
    && GroupEnd(H, gh, g) == if g + 1 < G then (g + 1) * gh else H
  }

  lemma OneGroup(H: nat, G: nat, g: nat)
    requires 0 < H < WIDE && g < G && (G - 1) * PerGroup(H, G) < H
    ensures GroupFits(H, PerGroup(H, G), G, g)
  {
    var gh := PerGroup(H, G);
    assert G * gh >= H && gh > 0;
    StartsInside(H, G, g);
    var left := H - g * gh;
    assert GroupHeads(H, gh, g) == Min(left, gh);
    if g + 1 < G {
      StartsInside(H, G, g + 1);
      assert (g + 1) * gh == g * gh + gh;
    } else {
      assert G * gh == g * gh + gh;
    }
  }

  lemma StartsInside(H: nat, G: nat, g: nat)
    requires G > 0 && g < G && (G - 1) * PerGroup(H, G) < H
    ensures g * PerGroup(H, G) < H
  {
    var gh := PerGroup(H, G);
    if g < G - 1 {
      MulMono(gh, g, G - 1);
      assert gh * g == g * gh && gh * (G - 1) == (G - 1) * gh;
    }
  }

  /** Two groups, the default, always are: for any number of heads that is not one. */
  lemma TwoGroups(H: nat)
    requires 2 <= H < WIDE
    ensures Partition(H, 2)
  {
    GroupsPartition(H, 2);
  }

  /** Nine heads in four groups leave the last one empty, which the unit refuses; five in
      four make it run past the heads, on ops no one filled in. */
  lemma NotEveryCount()
    ensures GroupHeads(9, PerGroup(9, 4), 3) == 0
    ensures PerGroup(5, 4) * 3 >= 5 && GroupHeads(5, PerGroup(5, 4), 3) == 2
  {
  }

  // ---- one group of heads: scores off, softmax and values on ----

  /** The scores ops of heads h0 up to h0 + n. */
  function ScoreOps(a: Layer, rb: nat, m: nat, h0: nat, n: nat): (r: seq<seq<Score>>)
    requires a.gqa > 0
    ensures |r| == n && forall i :: 0 <= i < n ==> r[i] == a.ScoreOp(rb, m, h0 + i)
  {
    seq(n, i requires 0 <= i < n => a.ScoreOp(rb, m, h0 + i))
  }

  function ValueOps(a: Layer, rb: nat, m: nat, h0: nat, n: nat): (r: seq<seq<Answer>>)
    requires a.gqa > 0
    ensures |r| == n && forall i :: 0 <= i < n ==> r[i] == a.ValueOp(rb, h0 + i, a.ScoreOp(rb, m, h0 + i))
  {
    seq(n, i requires 0 <= i < n => a.ValueOp(rb, h0 + i, a.ScoreOp(rb, m, h0 + i)))
  }

  method Group(fs: Handle<seq<Score>>, fvs: Handle<seq<Answer>>, a: Layer, rb: nat, ghost m: nat, h0: nat, n: nat)
    returns (ok: bool)
    requires a.Valid() && fs as object != fvs && fs.inflight && fs.flying == ScoreOps(a, rb, m, h0, n)
    modifies fs, fvs
    ensures fs.abandoned == old(fs.abandoned) && fs.submits == old(fs.submits)
    ensures ok ==> !fs.inflight && fvs.inflight && fvs.flying == ValueOps(a, rb, m, h0, n)
    ensures ok ==> fvs.abandoned == old(fvs.abandoned) + Count(old(fvs.inflight)) && fvs.submits == old(fvs.submits) + 1
    ensures old(fvs.abandoned) <= fvs.abandoned <= old(fvs.abandoned) + Count(old(fvs.inflight))
  {
    ok := fs.Wait(true);
    if !ok {
      return;
    }
    var vop := [];
    for h := 0 to n
      modifies {}
      invariant vop == ValueOps(a, rb, m, h0, n)[..h]
    {
      var x := fs.OutW(h);
      if x.None? {
        return false;
      }
      vop := vop + [a.ValueOp(rb, h0 + h, x.value)];
    }
    ok := fvs.Submit(vop);
    if !ok {
      return;
    }
    fs.PoisonAndRelease();
  }

  /** The first k heads of the m rows from rb hold their attention. */
  ghost predicate HeadsDone(out: array2<Answer>, a: Layer, rb: nat, m: nat, k: nat)
    requires a.gqa > 0
    reads out
  {
    && rb + m <= out.Length0 && k <= out.Length1
    && forall r, h :: rb <= r < rb + m && 0 <= h < k ==> out[r, h] == a.Attend(r, h)
  }

  /** Collect a group's values: the heads up to h0 were done, and now up to h0 + n. */
  method Collect(fvs: Handle<seq<Answer>>, out: array2<Answer>, a: Layer, rb: nat, m: nat, h0: nat, n: nat)
    returns (ok: bool)
    requires a.Valid() && fvs as object != out && HeadsDone(out, a, rb, m, h0) && h0 + n <= out.Length1
    requires fvs.flying == ValueOps(a, rb, m, h0, n)
    modifies fvs, out
    ensures ok ==> old(fvs.inflight) && HeadsDone(out, a, rb, m, h0 + n)
    ensures !fvs.inflight && fvs.abandoned == old(fvs.abandoned) && fvs.submits == old(fvs.submits)
    ensures OtherRows(Cells(out), rb, m, old(Cells(out)))
  {
    ok := fvs.Wait(false);
    if !ok {
      return;
    }
    var ys := fvs.answers;
    forall r, h | rb <= r < rb + m && h0 <= h < h0 + n { out[r, h] := ys[h - h0][r - rb]; }
  }

  /** The rows as they are, to compare with later. */
  ghost function Cells(out: array2<Answer>): (c: seq<seq<Answer>>)
    reads out
    ensures |c| == out.Length0 && forall r :: 0 <= r < |c| ==> |c[r]| == out.Length1
    ensures forall r, h :: 0 <= r < |c| && 0 <= h < out.Length1 ==> c[r][h] == out[r, h]
  {
    seq(out.Length0, r requires 0 <= r < out.Length0 reads out =>
      seq(out.Length1, h requires 0 <= h < out.Length1 reads out => out[r, h]))
  }

  ghost predicate OtherRows(cells: seq<seq<Answer>>, rb: nat, m: nat, was: seq<seq<Answer>>) {
    |was| == |cells| && forall r :: 0 <= r < |was| && !(rb <= r < rb + m) ==> cells[r] == was[r]
  }

  lemma OtherRowsChain(now: seq<seq<Answer>>, rb: nat, m: nat, mid: seq<seq<Answer>>, was: seq<seq<Answer>>)
    requires OtherRows(now, rb, m, mid) && OtherRows(mid, rb, m, was)
    ensures OtherRows(now, rb, m, was)
  {
  }

  lemma SameRows(out: array2<Answer>, rb: nat, m: nat)
    ensures OtherRows(Cells(out), rb, m, Cells(out))
  {
  }

  // ---- the ring ----

  /** A unit when the ring began: groups taken, groups thrown away, and whether one was in
      flight. */
  datatype Start = Start(taken: nat, thrown: nat, flew: bool)

  ghost predicate StartOf<T(!new)>(u: Handle<T>, b: Start)
    reads u
  {
    u.submits == b.taken && u.abandoned == b.thrown && u.inflight == b.flew
  }

  /** At most the group from before the ring was thrown away: never one of the ring's own. */
  ghost predicate Kept<T(!new)>(u: Handle<T>, b: Start)
    reads u
  {
    b.thrown <= u.abandoned <= b.thrown + Count(b.flew)
  }

  /** k of the ring's groups went through this unit, and it is free: or k is zero and it is
      as it was. */
  ghost predicate Free<T(!new)>(u: Handle<T>, b: Start, k: nat)
    reads u
  {
    if k > 0 then !u.inflight && u.abandoned == b.thrown + Count(b.flew) && u.submits == b.taken + k
    else StartOf(u, b)
  }

  /** The kth of the ring's groups is in flight on this unit. */
  ghost predicate Busy<T(!new)>(u: Handle<T>, b: Start, k: nat, ops: seq<T>)
    reads u
  {
    u.inflight && u.flying == ops && u.abandoned == b.thrown + Count(b.flew) && u.submits == b.taken + k
  }

  /** What one block of rows is split into: G groups of at most gh of H heads. */
  datatype Split = Split(a: Layer, H: nat, G: nat, gh: nat, rb: nat, m: nat)
  {
    ghost predicate Valid() {
      a.Valid() && 0 < H < WIDE && 0 < G < WIDE && gh == PerGroup(H, G) && Partition(H, G)
    }

    /** The first head of group g. */
    function At(g: nat): nat { g * gh }

    function Heads(g: nat): nat { GroupHeads(H, gh, g) }

    function Scores(g: nat): seq<seq<Score>>
      requires a.gqa > 0
    {
      ScoreOps(a, rb, m, At(g), Heads(g))
    }

    function Values(g: nat): seq<seq<Answer>>
      requires a.gqa > 0
    {
      ValueOps(a, rb, m, At(g), Heads(g))
    }

    /** Where group g starts: with all the heads of the groups before it done. */
    lemma Starts(g: nat)
      requires Valid() && g < G
      ensures At(g) + Heads(g) == if g + 1 < G then At(g + 1) else H
      ensures At(g) + Heads(g) <= H
    {
      hide CeilDiv;
      PartitionFits(H, G, g);
      hide Partition;
    }
  }

  /** One turn: the next group's scores in, this group's scores off and values on, the
      previous group's values collected. */
  method Turn(s: Split, g: nat, cur: Handle<seq<Score>>, next: Handle<seq<Score>>,
              vcur: Handle<seq<Answer>>, vprev: Handle<seq<Answer>>, out: array2<Answer>,
              ghost b: Start, ghost bn: Start, ghost v: Start, ghost vp: Start) returns (ok: bool)
    requires s.Valid() && g < s.G && out.Length1 == s.H
    requires HeadsDone(out, s.a, s.rb, s.m, if g == 0 then 0 else s.At(g - 1))
    requires cur as object != vcur && cur as object != vprev && cur as object != out
    requires next as object != vcur && next as object != vprev && next as object != out
    requires vcur as object != out && vprev as object != out && (s.G > 1 ==> cur != next && vcur != vprev)
    requires Busy(cur, b, g / 2 + 1, s.Scores(g)) && (s.G > 1 ==> Free(next, bn, (g + 1) / 2))
    requires Free(vcur, v, g / 2) && (g > 0 ==> Busy(vprev, vp, (g + 1) / 2, s.Values(g - 1)))
    requires g == 0 && s.G > 1 ==> Free(vprev, vp, 0)
    modifies cur, next, vcur, vprev, out
    ensures ok ==> Free(cur, b, g / 2 + 1) && (g + 1 < s.G ==> Busy(next, bn, (g + 1) / 2 + 1, s.Scores(g + 1)))
    ensures ok && s.G > 1 && g + 1 == s.G ==> Free(next, bn, (g + 1) / 2)
    ensures ok ==> Busy(vcur, v, g / 2 + 1, s.Values(g)) && (s.G > 1 ==> Free(vprev, vp, (g + 1) / 2))
    ensures ok ==> HeadsDone(out, s.a, s.rb, s.m, s.At(g))
    ensures Kept(cur, b) && Kept(vcur, v) && (s.G > 1 ==> Kept(next, bn) && Kept(vprev, vp))
    ensures OtherRows(Cells(out), s.rb, s.m, old(Cells(out)))
  {
    hide HeadsDone, OtherRows, Partition, Cells;
    SameRows(out, s.rb, s.m);
    if g + 1 < s.G {
      ok := next.Submit(s.Scores(g + 1));
      if !ok {
        return;
      }
    }
    ok := Group(cur, vcur, s.a, s.rb, s.m, s.At(g), s.Heads(g));
    if !ok {
      return;
    }
    if g > 0 {
      s.Starts(g - 1);
      ok := Collect(vprev, out, s.a, s.rb, s.m, s.At(g - 1), s.Heads(g - 1));
    }
  }

  /** The two units of each kind, one unit twice when there is one group. */
  ghost predicate Distinct(fs: seq<Handle<seq<Score>>>, fvs: seq<Handle<seq<Answer>>>, G: nat, out: array2<Answer>) {
    && |fs| == |fvs| == 2 && (G > 1 ==> fs[0] != fs[1] && fvs[0] != fvs[1])
    && (forall i, j :: 0 <= i < 2 && 0 <= j < 2 ==> fs[i] as object != fvs[j])
    && (forall i :: 0 <= i < 2 ==> fs[i] as object != out && fvs[i] as object != out)
  }

  ghost predicate Both<T(!new)>(us: seq<Handle<T>>, b: seq<Start>, G: nat)
    requires |us| == |b| == 2
    reads us
  {
    Kept(us[0], b[0]) && (G > 1 ==> Kept(us[1], b[1]))
  }

  /** The units at the top of turn g. */
  ghost predicate Between(fs: seq<Handle<seq<Score>>>, fvs: seq<Handle<seq<Answer>>>, s: Split, g: nat, u: nat,
                          b: seq<Start>, v: seq<Start>)
    requires s.a.gqa > 0 && u < 2 && |fs| == |fvs| == |b| == |v| == 2
    reads fs, fvs
  {
    && Both(fs, b, s.G) && Both(fvs, v, s.G)
    && (if g < s.G then Busy(fs[u], b[u], g / 2 + 1, s.Scores(g)) else s.G > 1 ==> Free(fs[u], b[u], g / 2))
    && (s.G > 1 || g > 0 ==> Free(fs[1 - u], b[1 - u], (g + 1) / 2))
    && (g < s.G || s.G > 1 ==> Free(fvs[u], v[u], g / 2))
    && (g > 0 ==> Busy(fvs[1 - u], v[1 - u], (g + 1) / 2, s.Values(g - 1)))
    && (g == 0 && s.G > 1 ==> Free(fvs[1 - u], v[1 - u], 0))
  }

  /** Every group went through once: the even ones through the first unit, the odd through
      the second. */
  ghost predicate AllThrough<T(!new)>(us: seq<Handle<T>>, b: seq<Start>, G: nat)
    requires |us| == |b| == 2
    reads us
  {
    Free(us[0], b[0], (G + 1) / 2) && (G > 1 ==> Free(us[1], b[1], G / 2))
  }

  method OneTurn(fs: seq<Handle<seq<Score>>>, fvs: seq<Handle<seq<Answer>>>, s: Split, g: nat, u: nat, out: array2<Answer>,
                 ghost b: seq<Start>, ghost v: seq<Start>) returns (ok: bool)
    requires s.Valid() && Distinct(fs, fvs, s.G, out) && s.rb + s.m <= out.Length0 && out.Length1 == s.H
    requires |b| == |v| == 2 && u == g % 2 && g < s.G
    requires Between(fs, fvs, s, g, u, b, v) && HeadsDone(out, s.a, s.rb, s.m, if g == 0 then 0 else s.At(g - 1))
    modifies fs, fvs, out
    ensures ok ==> Between(fs, fvs, s, g + 1, 1 - u, b, v) && HeadsDone(out, s.a, s.rb, s.m, s.At(g))
    ensures Both(fs, b, s.G) && Both(fvs, v, s.G)
    ensures OtherRows(Cells(out), s.rb, s.m, old(Cells(out)))
  {
    hide HeadsDone, OtherRows, Partition, Cells, CeilDiv;
    if u == 0 {
      ok := Turn(s, g, fs[0], fs[1], fvs[0], fvs[1], out, b[0], b[1], v[0], v[1]);
    } else {
      ok := Turn(s, g, fs[1], fs[0], fvs[1], fvs[0], out, b[1], b[0], v[1], v[0]);
    }
  }

  /** The first group's scores. */
  method Begin(fs: seq<Handle<seq<Score>>>, fvs: seq<Handle<seq<Answer>>>, s: Split,
               ghost b: seq<Start>, ghost v: seq<Start>) returns (ok: bool)
    requires s.a.Valid() && |fs| == |fvs| == |b| == |v| == 2 && s.G > 0 && (s.G > 1 ==> fs[0] != fs[1])
    requires forall i, j :: 0 <= i < 2 && 0 <= j < 2 ==> fs[i] as object != fvs[j]
    requires StartOf(fs[0], b[0]) && StartOf(fs[1], b[1]) && StartOf(fvs[0], v[0]) && StartOf(fvs[1], v[1])
    modifies fs[0]
    ensures Both(fs, b, s.G) && Both(fvs, v, s.G) && (ok ==> Between(fs, fvs, s, 0, 0, b, v))
  {
    ok := fs[0].Submit(s.Scores(0));
  }

  /** The last group's values. */
  method Finish(fs: seq<Handle<seq<Score>>>, fvs: seq<Handle<seq<Answer>>>, s: Split, last: nat, out: array2<Answer>,
                ghost b: seq<Start>, ghost v: seq<Start>) returns (ok: bool)
    requires s.Valid() && Distinct(fs, fvs, s.G, out) && s.rb + s.m <= out.Length0 && out.Length1 == s.H
    requires |b| == |v| == 2 && last == (s.G - 1) % 2 && Between(fs, fvs, s, s.G, 1 - last, b, v)
    requires HeadsDone(out, s.a, s.rb, s.m, s.At(s.G - 1))
    modifies fvs[last], out
    ensures Both(fs, b, s.G) && Both(fvs, v, s.G) && (ok ==> HeadsDone(out, s.a, s.rb, s.m, s.H))
    ensures ok ==> AllThrough(fs, b, s.G) && AllThrough(fvs, v, s.G)
    ensures OtherRows(Cells(out), s.rb, s.m, old(Cells(out)))
  {
    hide HeadsDone, OtherRows, Partition, Cells, CeilDiv;
    s.Starts(s.G - 1);
    ok := Collect(fvs[last], out, s.a, s.rb, s.m, s.At(s.G - 1), s.Heads(s.G - 1));
  }

  /** One block of rows: every head's attention, whatever the number of groups, or a refusal.
      Each head is scored once and its values collected once; no unit is ever given a group
      while one of the ring's own is in flight on it. */
  method Ring(fs: seq<Handle<seq<Score>>>, fvs: seq<Handle<seq<Answer>>>, s: Split, out: array2<Answer>) returns (ok: bool)
    requires s.Valid() && Distinct(fs, fvs, s.G, out)
    requires s.rb + s.m <= out.Length0 && out.Length1 == s.H
    modifies fs, fvs, out
    ensures ok ==> HeadsDone(out, s.a, s.rb, s.m, s.H)
    ensures OtherRows(Cells(out), s.rb, s.m, old(Cells(out)))
    ensures Both(fs, old(Starts(fs)), s.G) && Both(fvs, old(Starts(fvs)), s.G)
    ensures ok ==> AllThrough(fs, old(Starts(fs)), s.G) && AllThrough(fvs, old(Starts(fvs)), s.G)
  {
    hide HeadsDone, OtherRows, Partition, Cells, CeilDiv, Between, Both, AllThrough;
    SameRows(out, s.rb, s.m);
    ghost var b, v := Starts(fs), Starts(fvs);
    ok := Begin(fs, fvs, s, b, v);
    if !ok {
      return;
    }
    NoHeads(out, s);
    ghost var was;
    for g := 0 to s.G
      invariant Between(fs, fvs, s, g, g % 2, b, v)
      invariant HeadsDone(out, s.a, s.rb, s.m, if g == 0 then 0 else s.At(g - 1))
      invariant OtherRows(Cells(out), s.rb, s.m, old(Cells(out)))
    {
      was := Cells(out);
      ok := OneTurn(fs, fvs, s, g, g % 2, out, b, v);
      OtherRowsChain(Cells(out), s.rb, s.m, was, old(Cells(out)));
      if !ok {
        return;
      }
    }
    was := Cells(out);
    ok := Finish(fs, fvs, s, (s.G - 1) % 2, out, b, v);
    OtherRowsChain(Cells(out), s.rb, s.m, was, old(Cells(out)));
  }

  ghost function Starts<T(!new)>(us: seq<Handle<T>>): (b: seq<Start>)
    requires |us| == 2
    reads us
    ensures |b| == 2 && StartOf(us[0], b[0]) && StartOf(us[1], b[1])
  {
    [Start(us[0].submits, us[0].abandoned, us[0].inflight), Start(us[1].submits, us[1].abandoned, us[1].inflight)]
  }

  lemma NoHeads(out: array2<Answer>, s: Split)
    requires s.a.gqa > 0 && s.rb + s.m <= out.Length0
    ensures HeadsDone(out, s.a, s.rb, s.m, 0)
  {
  }

  // ---- a layer: blocks of at most mmax rows ----

  /** The second unit of each kind, where there is one. */
  datatype Second = Second(f2: Handle<seq<Score>>, fv2: Handle<seq<Answer>>)

  /** One group if there is no second pair, fewer heads than groups, or one row. */
  function GroupsFor(second: Option<Second>, want: nat, H: nat, m: nat): nat {
    if second.None? || want > H || m < 2 then 1 else want
  }

  lemma OneGroupIsAll(H: nat)
    requires 0 < H < WIDE
    ensures Partition(H, 1)
  {
    GroupsPartition(H, 1);
  }

  /** One block, through one pair of units or both. */
  method Block(f: Handle<seq<Score>>, fv: Handle<seq<Answer>>, second: Option<Second>, a: Layer,
               H: nat, rb: nat, m: nat, want: nat, out: array2<Answer>) returns (ok: bool)
    requires a.Valid() && 0 < H < WIDE && 0 < m && 0 < want <= 8
    requires want <= H && second.Some? ==> (want - 1) * PerGroup(H, want) < H
    requires rb + m <= out.Length0 && out.Length1 == H
    requires f as object != fv
    requires second.Some? ==> second.value.f2 != f && second.value.f2 as object != fv && second.value.f2 as object != second.value.fv2
    requires second.Some? ==> second.value.fv2 != fv && second.value.fv2 as object != f
    modifies f, fv, out
    modifies if second.Some? then {second.value.f2} else {}
    modifies if second.Some? then {second.value.fv2} else {}
    ensures ok ==> HeadsDone(out, a, rb, m, H)
    ensures OtherRows(Cells(out), rb, m, old(Cells(out)))
    ensures var two := second.Some? && want <= H && m > 1;
            && (ok ==> f.submits == old(f.submits) + (if two then (want + 1) / 2 else 1) && fv.submits - old(fv.submits) == f.submits - old(f.submits))
            && (ok && second.Some? ==> second.value.f2.submits == old(second.value.f2.submits) + if two then want / 2 else 0)
            && (ok && second.Some? ==> second.value.fv2.submits == old(second.value.fv2.submits) + if two then want / 2 else 0)
  {
    hide HeadsDone, OtherRows, Partition, Cells, CeilDiv, Both;
    var G := GroupsFor(second, want, H, m);
    var fs := [f, if G > 1 then second.value.f2 else f];
    var fvs := [fv, if G > 1 then second.value.fv2 else fv];
    if G == 1 { OneGroupIsAll(H); } else { GroupsPartition(H, G); }
    ok := Ring(fs, fvs, Split(a, H, G, PerGroup(H, G), rb, m), out);
  }

  /** The groups a layer of n rows puts through unit u of two: its share of each block's
      groups, or a whole block on the first where there is one group. */
  function Trips(n: nat, mmax: nat, H: nat, want: nat, two: bool, u: nat): nat
    requires mmax > 0 && u < 2
  {
    if n == 0 then 0
    else
      var m := Min(n, mmax);
      (if two && want <= H && m > 1 then (want + 1 - u) / 2 else 1 - u) + Trips(n - m, mmax, H, want, two, u)
  }

  /** Blocks of rows one after another, each through the ring; every row and head gets its
      attention and each unit its share of the groups, or the layer falls back. */
  method AttnLayer(f: Handle<seq<Score>>, fv: Handle<seq<Answer>>, second: Option<Second>, a: Layer,
                   H: nat, n: nat, mmax: nat, want: nat, out: array2<Answer>) returns (ok: bool)
    requires a.Valid() && 0 < H < WIDE && mmax > 0 && 0 < want <= 8
    requires want <= H && second.Some? ==> (want - 1) * PerGroup(H, want) < H
    requires out.Length0 == n && out.Length1 == H
    requires f as object != fv
    requires second.Some? ==> second.value.f2 != f && second.value.f2 as object != fv && second.value.f2 as object != second.value.fv2
    requires second.Some? ==> second.value.fv2 != fv && second.value.fv2 as object != f
    modifies f, fv, out
    modifies if second.Some? then {second.value.f2} else {}
    modifies if second.Some? then {second.value.fv2} else {}
    ensures ok ==> HeadsDone(out, a, 0, n, H)
    ensures ok ==> forall r, h, kv: nat :: 0 <= r < n && 0 <= h < H && kv * a.gqa <= h < kv * a.gqa + a.gqa ==>
                     out[r, h] == a.value(r, kv, a.score(r, h, kv))
    ensures ok ==> f.submits == old(f.submits) + Trips(n, mmax, H, want, second.Some?, 0)
    ensures ok ==> fv.submits == old(fv.submits) + Trips(n, mmax, H, want, second.Some?, 0)
    ensures ok && second.Some? ==>
              && second.value.f2.submits == old(second.value.f2.submits) + Trips(n, mmax, H, want, true, 1)
              && second.value.fv2.submits == old(second.value.fv2.submits) + Trips(n, mmax, H, want, true, 1)
  {
    hide HeadsDone, OtherRows, Cells, CeilDiv;
    var rb := 0;
    NoRows(out, a, H);
    while rb < n
      invariant rb <= n && HeadsDone(out, a, 0, rb, H)
      invariant f.submits + Trips(n - rb, mmax, H, want, second.Some?, 0) == old(f.submits) + Trips(n, mmax, H, want, second.Some?, 0)
      invariant fv.submits + Trips(n - rb, mmax, H, want, second.Some?, 0) == old(fv.submits) + Trips(n, mmax, H, want, second.Some?, 0)
      invariant second.Some? ==>
                  && second.value.f2.submits + Trips(n - rb, mmax, H, want, true, 1) == old(second.value.f2.submits) + Trips(n, mmax, H, want, true, 1)
                  && second.value.fv2.submits + Trips(n - rb, mmax, H, want, true, 1) == old(second.value.fv2.submits) + Trips(n, mmax, H, want, true, 1)
      decreases n - rb
    {
      var m := if n - rb < mmax then n - rb else mmax;
      ghost var was := Cells(out);
      RowsAre(out, a, rb, H);
      ok := Block(f, fv, second, a, H, rb, m, want, out);
      if !ok {
        return;
      }
      RowsJoin(out, a, rb, m, H, was);
      rb := rb + m;
    }
    ok := true;
    EveryRow(out, a, n, H);
  }

  lemma NoRows(out: array2<Answer>, a: Layer, H: nat)
    requires a.gqa > 0 && out.Length1 == H
    ensures HeadsDone(out, a, 0, 0, H)
  {
  }

  lemma EveryRow(out: array2<Answer>, a: Layer, n: nat, H: nat)
    requires a.Valid() && out.Length0 == n && out.Length1 == H && HeadsDone(out, a, 0, n, H)
    ensures forall r, h, kv: nat :: 0 <= r < n && 0 <= h < H && kv * a.gqa <= h < kv * a.gqa + a.gqa ==>
              out[r, h] == a.value(r, kv, a.score(r, h, kv))
  {
    forall r, h, kv: nat | 0 <= r < n && 0 <= h < H && kv * a.gqa <= h < kv * a.gqa + a.gqa
      ensures out[r, h] == a.value(r, kv, a.score(r, h, kv))
    {
      OwnKv(a, r, h, kv);
    }
  }

  /** A head attends through the kv head whose gqa heads it is one of. */
  lemma OwnKv(a: Layer, r: nat, h: nat, kv: nat)
    requires a.Valid() && kv * a.gqa <= h < kv * a.gqa + a.gqa
    ensures a.Attend(r, h) == a.value(r, kv, a.score(r, h, kv))
  {
    DivMod(a.gqa, kv, h - kv * a.gqa);
  }

  /** The same, of the rows as they were. */
  ghost predicate RowsHold(cells: seq<seq<Answer>>, a: Layer, rows: nat, H: nat)
    requires a.gqa > 0
  {
    rows <= |cells| && forall r, h :: 0 <= r < rows && 0 <= h < H ==> |cells[r]| == H && cells[r][h] == a.Attend(r, h)
  }

  lemma RowsAre(out: array2<Answer>, a: Layer, rows: nat, H: nat)
    requires a.gqa > 0 && HeadsDone(out, a, 0, rows, H) && out.Length1 == H
    ensures RowsHold(Cells(out), a, rows, H)
  {
  }

  lemma RowsJoin(out: array2<Answer>, a: Layer, rb: nat, m: nat, H: nat, was: seq<seq<Answer>>)
    requires a.gqa > 0 && out.Length1 == H && RowsHold(was, a, rb, H)
    requires HeadsDone(out, a, rb, m, H) && OtherRows(Cells(out), rb, m, was)
    ensures HeadsDone(out, a, 0, rb + m, H)
  {
    forall r, h | 0 <= r < rb + m && 0 <= h < H ensures out[r, h] == a.Attend(r, h) {
      if r < rb {
        assert Cells(out)[r] == was[r];
        assert Cells(out)[r][h] == was[r][h];
      }
    }
  }
}
