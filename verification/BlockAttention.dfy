/**
 Attention on the CPU: the token loop, one row at a time and the queries of a kv head
 together, and the block form, R rows a pass over the cache in steps of four and eight
 positions. Both make the same floats, operation by operation.
 */
module BlockAttention {
  import opened IndexArith
  import opened Floats

  datatype Option<+T> = None | Some(value: T)

  /** A scratch cell: a score this unit wrote, or whatever an earlier one left. */
  type Cell = Option<Float>

  /** One layer's attention for n rows from position pos0. `dot(r, h, kv, t)` is row r's
      head h against the kv head's key at t; a window layer sees the last `window`
      positions. */
  datatype Attn = Attn(o: Ops, hd: nat, n: nat, H: nat, gqa: nat, pos0: nat, windowed: bool, window: nat, nctx: nat,
                       dot: (nat, nat, nat, nat) -> Float, scale: Float, value: (nat, nat) -> seq<Float>,
                       softmax: seq<Float> -> seq<Float>)
  {
    ghost predicate Valid() {
      && gqa > 0 && pos0 + n <= nctx
      && (forall kv, t :: |value(kv, t)| == hd) && (forall s :: |softmax(s)| == |s|)
    }

    function Pos(r: nat): nat { pos0 + r }

    /** The oldest position row r may look at. */
    function Lo(r: nat): (t: nat)
      ensures t <= Pos(r) + 1
    {
      if windowed && Pos(r) + 1 > window then Pos(r) + 1 - window else 0
    }

    /** Row r may look at position t: not past its own, and on a window layer one of the last
        `window` up to it. */
    predicate Sees(r: nat, t: nat) { t <= pos0 + r && (!windowed || t + window > pos0 + r) }

    lemma WindowExactly(r: nat, t: nat)
      ensures Lo(r) <= t <= Pos(r) <==> Sees(r, t)
    {
    }

    /** So many positions: its own and all before it, or on a window layer at most the window. */
    lemma WindowSize(r: nat, h: nat)
      requires gqa > 0
      ensures |Scores(r, h)| == if windowed then Min(pos0 + r + 1, window) else pos0 + r + 1
    {
    }

    function Score(r: nat, h: nat, t: nat): Float
      requires gqa > 0
    {
      o.mul(dot(r, h, h / gqa, t), scale)
    }

    /** The window's scores, oldest first, and their softmax. */
    function Scores(r: nat, h: nat): (s: seq<Float>)
      requires gqa > 0
      ensures |s| == Pos(r) + 1 - Lo(r) && forall i :: 0 <= i < |s| ==> s[i] == Score(r, h, Lo(r) + i)
    {
      seq(Pos(r) + 1 - Lo(r), i requires 0 <= i => Score(r, h, Lo(r) + i))
    }

    function Probs(r: nat, h: nat): seq<Float>
      requires gqa > 0
    {
      softmax(Scores(r, h))
    }

    /** Each element: the product rounded, then the sum. */
    function Axpy(out: seq<Float>, w: Float, v: seq<Float>): (r: seq<Float>)
      requires |v| == |out|
      ensures |r| == |out| && forall i :: 0 <= i < |r| ==> r[i] == o.add(out[i], o.mul(w, v[i]))
    {
      seq(|out|, i requires 0 <= i < |out| => o.add(out[i], o.mul(w, v[i])))
    }

    /** The values of the window's first k positions, added in ascending order. */
    ghost function Sum(r: nat, h: nat, k: nat): (s: seq<Float>)
      requires Valid() && k <= Pos(r) + 1 - Lo(r)
      ensures |s| == hd
    {
      if k == 0 then seq(hd, _ => o.zero)
      else Axpy(Sum(r, h, k - 1), Probs(r, h)[k - 1], value(h / gqa, Lo(r) + k - 1))
    }

    /** Attention for one row and head: the reference. */
    ghost function Attend(r: nat, h: nat): seq<Float>
      requires Valid()
    {
      Sum(r, h, Pos(r) + 1 - Lo(r))
    }

    /** Positions of row r's window before hi. */
    function Before(r: nat, hi: nat): (k: nat)
      ensures k <= Pos(r) + 1 - Lo(r)
    {
      if hi <= Lo(r) then 0 else if hi > Pos(r) then Pos(r) + 1 - Lo(r) else hi - Lo(r)
    }
  }

  // ---- the reference, in plain terms ----

  /** Values weighted and added one after another, each product and each sum rounded. */
  function WeightedSum(o: Ops, hd: nat, w: seq<Float>, v: seq<seq<Float>>): (s: seq<Float>)
    requires |w| == |v| && forall i :: 0 <= i < |v| ==> |v[i]| == hd
    ensures |s| == hd
  {
    if w == [] then seq(hd, _ => o.zero)
    else
      var n := |w| - 1;
      var s := WeightedSum(o, hd, w[..n], v[..n]);
      seq(hd, e requires 0 <= e < hd => o.add(s[e], o.mul(w[n], v[n][e])))
  }

  /** The scores and the values of the positions from lo to row r's own. */
  function ScoresFrom(a: Attn, r: nat, h: nat, kv: nat, lo: nat): seq<Float>
    requires lo <= a.pos0 + r + 1
  {
    seq(a.pos0 + r + 1 - lo, i requires 0 <= i => a.o.mul(a.dot(r, h, kv, lo + i), a.scale))
  }

  function ValuesFrom(a: Attn, r: nat, kv: nat, lo: nat): seq<seq<Float>>
    requires lo <= a.pos0 + r + 1
  {
    seq(a.pos0 + r + 1 - lo, i requires 0 <= i => a.value(kv, lo + i))
  }

  /** A row and head's attention is the weighted sum of the values it sees, by the softmax of
      its scores against the keys of its own kv head. */
  lemma AttendIs(a: Attn, r: nat, h: nat, kv: nat, lo: nat)
    requires a.Valid() && kv * a.gqa <= h < kv * a.gqa + a.gqa
    requires lo <= a.pos0 + r + 1 && forall t: nat :: a.Sees(r, t) <==> lo <= t <= a.pos0 + r
    ensures |a.softmax(ScoresFrom(a, r, h, kv, lo))| == |ValuesFrom(a, r, kv, lo)|
    ensures a.Attend(r, h) == WeightedSum(a.o, a.hd, a.softmax(ScoresFrom(a, r, h, kv, lo)), ValuesFrom(a, r, kv, lo))
  {
    DivMod(a.gqa, kv, h - kv * a.gqa);
    a.WindowExactly(r, lo);
    a.WindowExactly(r, a.Lo(r));
    assert a.Lo(r) == lo;
    assert a.Scores(r, h) == ScoresFrom(a, r, h, kv, lo);
    SumIs(a, r, h, a.Pos(r) + 1 - lo);
    var w, v := a.Probs(r, h), ValuesFrom(a, r, kv, lo);
    assert w[..|w|] == w && v[..|w|] == v;
  }

  lemma {:induction false} SumIs(a: Attn, r: nat, h: nat, k: nat)
    requires a.Valid() && k <= a.Pos(r) + 1 - a.Lo(r)
    ensures |a.Probs(r, h)| == |ValuesFrom(a, r, h / a.gqa, a.Lo(r))| == a.Pos(r) + 1 - a.Lo(r)
    ensures a.Sum(r, h, k) == WeightedSum(a.o, a.hd, a.Probs(r, h)[..k], ValuesFrom(a, r, h / a.gqa, a.Lo(r))[..k])
  {
    var w, v := a.Probs(r, h), ValuesFrom(a, r, h / a.gqa, a.Lo(r));
    if k > 0 {
      SumIs(a, r, h, k - 1);
      assert w[..k][..k - 1] == w[..k - 1] && v[..k][..k - 1] == v[..k - 1];
    }
  }

  /** Two layers that agree on what a row sees attend alike for it. */
  lemma AttendAlike(a: Attn, b: Attn, r: nat, h: nat)
    requires a.Valid() && b.Valid() && a.o == b.o && a.hd == b.hd && a.gqa == b.gqa && a.pos0 == b.pos0
    requires a.windowed == b.windowed && a.window == b.window && a.scale == b.scale && a.softmax == b.softmax
    requires forall t: nat :: a.Sees(r, t) ==> a.dot(r, h, h / a.gqa, t) == b.dot(r, h, h / a.gqa, t)
                                               && a.value(h / a.gqa, t) == b.value(h / a.gqa, t)
    ensures a.Attend(r, h) == b.Attend(r, h)
  {
    hide Attn.Scores, ValuesFrom, WeightedSum, Attn.Sum, Attn.Lo;
    SameScores(a, b, r, h);
    SumIs(a, r, h, a.Pos(r) + 1 - a.Lo(r));
    SumIs(b, r, h, a.Pos(r) + 1 - a.Lo(r));
  }

  lemma SameScores(a: Attn, b: Attn, r: nat, h: nat)
    requires a.gqa > 0 && a.o == b.o && a.gqa == b.gqa && a.pos0 == b.pos0
    requires a.windowed == b.windowed && a.window == b.window && a.scale == b.scale
    requires forall t: nat :: a.Sees(r, t) ==> a.dot(r, h, h / a.gqa, t) == b.dot(r, h, h / a.gqa, t)
                                               && a.value(h / a.gqa, t) == b.value(h / a.gqa, t)
    ensures a.Lo(r) == b.Lo(r) && a.Scores(r, h) == b.Scores(r, h)
    ensures ValuesFrom(a, r, h / a.gqa, a.Lo(r)) == ValuesFrom(b, r, h / a.gqa, a.Lo(r))
  {
    var x, y := ValuesFrom(a, r, h / a.gqa, a.Lo(r)), ValuesFrom(b, r, h / a.gqa, a.Lo(r));
    forall i | 0 <= i < |x| ensures a.Scores(r, h)[i] == b.Scores(r, h)[i] && x[i] == y[i] {
      a.WindowExactly(r, a.Lo(r) + i);
    }
  }

  // ---- one row of scratch ----

  /** The positions of the window before hi carry their scores; the rest carry nothing yet. */
  ghost predicate ScoredTo(a: Attn, r: nat, h: nat, row: seq<Cell>, hi: nat)
    requires a.Valid()
  {
    && |row| == a.nctx
    && forall t :: a.Lo(r) <= t <= a.Pos(r) && t < |row| ==> row[t] == if t < hi then Some(a.Score(r, h, t)) else None
  }

  /** A score is written once: over a cell that carries none. */
  function Put(row: seq<Cell>, t: nat, x: Float): (row': seq<Cell>)
    requires t < |row| && row[t] == None
    ensures |row'| == |row|
  {
    row[t := Some(x)]
  }

  /** Four positions for one row: all at once where the whole quad is in its window, else
      those that are, one by one. */
  method ScoreQuad(a: Attn, r: nat, h: nat, t: nat, tmax: nat, row: seq<Cell>) returns (row': seq<Cell>)
    requires a.Valid() && r < a.n && a.Pos(r) <= tmax && ScoredTo(a, r, h, row, t)
    ensures ScoredTo(a, r, h, row', t + 4)
    ensures |row'| == |row| && forall u :: 0 <= u < |row| ==>
              row'[u] == if t <= u < t + 4 && a.Sees(r, u) then Some(a.o.mul(a.dot(r, h, h / a.gqa, u), a.scale)) else row[u]
  {
    var kv, pos, lo := h / a.gqa, a.Pos(r), a.Lo(r);
    if t + 3 <= tmax && t >= lo && t + 3 <= pos {
      row' := Put(row, t, a.o.mul(a.dot(r, h, kv, t), a.scale));
      row' := Put(row', t + 1, a.o.mul(a.dot(r, h, kv, t + 1), a.scale));
      row' := Put(row', t + 2, a.o.mul(a.dot(r, h, kv, t + 2), a.scale));
      row' := Put(row', t + 3, a.o.mul(a.dot(r, h, kv, t + 3), a.scale));
      return;
    }
    row' := row;
    var u := t;
    while u < t + 4 && u <= tmax
      invariant t <= u <= t + 4 && (u <= tmax || u <= tmax + 1 || u == t) && ScoredTo(a, r, h, row', u)
      invariant |row'| == |row| && forall q :: 0 <= q < |row| ==>
                  row'[q] == if t <= q < u && a.Sees(r, q) then Some(a.o.mul(a.dot(r, h, kv, q), a.scale)) else row[q]
    {
      if !(u < lo || u > pos) {
        row' := Put(row', u, a.o.mul(a.dot(r, h, kv, u), a.scale));
      }
      u := u + 1;
    }
  }

  /** The window after the softmax. */
  ghost predicate Softmaxed(a: Attn, r: nat, h: nat, row: seq<Cell>)
    requires a.Valid()
  {
    && |row| == a.nctx
    && forall t :: a.Lo(r) <= t <= a.Pos(r) && t < |row| ==> row[t] == Some(a.Probs(r, h)[t - a.Lo(r)])
  }

  function ReadWindow(row: seq<Cell>, lo: nat, len: nat): (s: seq<Float>)
    requires lo + len <= |row| && forall t :: lo <= t < lo + len ==> row[t].Some?
    ensures |s| == len && forall i :: 0 <= i < len ==> s[i] == row[lo + i].value
  {
    seq(len, i requires 0 <= i < len => row[lo + i].value)
  }

  /** In place, over the window and nothing else: every cell it reads was written. */
  method SoftmaxRow(a: Attn, r: nat, h: nat, row: seq<Cell>) returns (row': seq<Cell>)
    requires a.Valid() && r < a.n && ScoredTo(a, r, h, row, a.Pos(r) + 1)
    ensures Softmaxed(a, r, h, row')
  {
    var lo, len := a.Lo(r), a.Pos(r) + 1 - a.Lo(r);
    var s := ReadWindow(row, lo, len);
    assert s == a.Scores(r, h);
    var p := a.softmax(s);
    row' := seq(|row|, t requires 0 <= t < |row| => if lo <= t < lo + len then Some(p[t - lo]) else row[t]);
  }

  /** The weight of a position: only of one that was scored. */
  function Weight(row: seq<Cell>, t: nat): Float
    requires t < |row| && row[t].Some?
  {
    row[t].value
  }

  /** An element after the first k of several positions, added in order and kept in a
      register in between. */
  function Chain(a: Attn, x: Float, w: seq<Float>, v: seq<seq<Float>>, i: nat, k: nat): Float
    requires k <= |w| == |v| && forall q :: 0 <= q < |v| ==> i < |v[q]|
  {
    if k == 0 then x else a.o.add(Chain(a, x, w, v, i, k - 1), a.o.mul(w[k - 1], v[k - 1][i]))
  }

  /** attn_axpy4 and attn_axpy8. */
  function AxpyMany(a: Attn, out: seq<Float>, w: seq<Float>, v: seq<seq<Float>>): (r: seq<Float>)
    requires |w| == |v| && forall q :: 0 <= q < |v| ==> |v[q]| == |out|
    ensures |r| == |out| && forall i :: 0 <= i < |r| ==> r[i] == Chain(a, out[i], w, v, i, |w|)
  {
    seq(|out|, i requires 0 <= i < |out| => Chain(a, out[i], w, v, i, |w|))
  }

  ghost predicate IsPart(a: Attn, r: nat, h: nat, k: nat, w: seq<Float>, v: seq<seq<Float>>)
    requires a.Valid()
  {
    && |w| == |v| && k + |w| <= a.Pos(r) + 1 - a.Lo(r)
    && forall q :: 0 <= q < |w| ==> w[q] == a.Probs(r, h)[k + q] && v[q] == a.value(h / a.gqa, a.Lo(r) + k + q)
  }

  /** The wide form is that many single ones. */
  lemma {:induction false} ChainIsSum(a: Attn, r: nat, h: nat, k: nat, w: seq<Float>, v: seq<seq<Float>>, i: nat, q: nat)
    requires a.Valid() && IsPart(a, r, h, k, w, v) && i < a.hd && q <= |w|
    ensures Chain(a, a.Sum(r, h, k)[i], w, v, i, q) == a.Sum(r, h, k + q)[i]
  {
    if q > 0 {
      ChainIsSum(a, r, h, k, w, v, i, q - 1);
      assert w[q - 1] == a.Probs(r, h)[k + (q - 1)] && v[q - 1] == a.value(h / a.gqa, a.Lo(r) + k + (q - 1));
    }
  }

  lemma ManyIsSum(a: Attn, r: nat, h: nat, k: nat, w: seq<Float>, v: seq<seq<Float>>)
    requires a.Valid() && IsPart(a, r, h, k, w, v)
    ensures AxpyMany(a, a.Sum(r, h, k), w, v) == a.Sum(r, h, k + |w|)
  {
    forall i | 0 <= i < a.hd ensures AxpyMany(a, a.Sum(r, h, k), w, v)[i] == a.Sum(r, h, k + |w|)[i] {
      ChainIsSum(a, r, h, k, w, v, i, |w|);
    }
  }

  /** Four or eight positions' values for one row: at once where all are in its window, else
      those that are, one by one, in the same order. */
  method AddPositions(a: Attn, r: nat, h: nat, t: nat, step: nat, tmax: nat, row: seq<Cell>, out: seq<Float>)
    returns (out': seq<Float>)
    requires a.Valid() && r < a.n && a.Pos(r) <= tmax && Softmaxed(a, r, h, row) && step in {4, 8}
    requires out == a.Sum(r, h, a.Before(r, t))
    ensures out' == a.Sum(r, h, a.Before(r, t + step))
  {
    hide Softmaxed, AxpyMany, Attn.Sum, Attn.Axpy, Weight, Attn.Valid;
    var pos, lo := a.Pos(r), a.Lo(r);
    if t + step - 1 <= tmax && t >= lo && t + step - 1 <= pos {
      var w, v := LoadMany(a, r, h, t, step, row);
      ManyIsSum(a, r, h, t - lo, w, v);
      return AxpyMany(a, out, w, v);
    }
    out' := out;
    var u := t;
    while u < t + step && u <= tmax
      invariant t <= u <= t + step && (u <= tmax || u <= tmax + 1 || u == t) && out' == a.Sum(r, h, a.Before(r, u))
    {
      if !(u < lo || u > pos) {
        out' := AddOne(a, r, h, u, row, out');
      }
      u := u + 1;
    }
  }

  method LoadMany(a: Attn, r: nat, h: nat, t: nat, step: nat, row: seq<Cell>) returns (w: seq<Float>, v: seq<seq<Float>>)
    requires a.Valid() && r < a.n && Softmaxed(a, r, h, row) && a.Lo(r) <= t && t + step <= a.Pos(r) + 1
    ensures |w| == step && IsPart(a, r, h, t - a.Lo(r), w, v) && forall q :: 0 <= q < |v| ==> |v[q]| == a.hd
  {
    var kv := h / a.gqa;
    w := seq(step, q requires 0 <= q < step => Weight(row, t + q));
    v := seq(step, q requires 0 <= q => a.value(kv, t + q));
    var k := t - a.Lo(r);
    forall q | 0 <= q < step ensures w[q] == a.Probs(r, h)[k + q] && v[q] == a.value(kv, a.Lo(r) + k + q) {
      assert w[q] == Weight(row, t + q) && v[q] == a.value(kv, t + q);
      assert row[t + q] == Some(a.Probs(r, h)[t + q - a.Lo(r)]);
      assert t + q == a.Lo(r) + k + q && t + q - a.Lo(r) == k + q;
    }
  }

  method AddOne(a: Attn, r: nat, h: nat, u: nat, row: seq<Cell>, out: seq<Float>) returns (out': seq<Float>)
    requires a.Valid() && r < a.n && Softmaxed(a, r, h, row) && a.Lo(r) <= u <= a.Pos(r)
    requires out == a.Sum(r, h, a.Before(r, u))
    ensures out' == a.Sum(r, h, a.Before(r, u + 1))
  {
    out' := a.Axpy(out, Weight(row, u), a.value(h / a.gqa, u));
  }

  // ---- a block of rows for one head ----

  /** Nothing outside rows lo up to hi has changed. */
  ghost predicate Keeps<T>(before: seq<T>, after: seq<T>, lo: nat, hi: nat) {
    |after| == |before| && forall g :: 0 <= g < |before| && !(lo <= g < hi) ==> after[g] == before[g]
  }

  /** Row i of the block is scored before position t, or t + 4 for the first `cur` rows. */
  ghost predicate AllScored(a: Attn, h: nat, rb: nat, rows: seq<seq<Cell>>, cur: nat, t: nat)
    requires a.Valid()
  {
    forall i :: 0 <= i < |rows| ==> ScoredTo(a, rb + i, h, rows[i], if i < cur then t + 4 else t)
  }

  /** The first `cur` rows are softmaxed, the rest scored. */
  ghost predicate AllSoft(a: Attn, h: nat, rb: nat, rows: seq<seq<Cell>>, cur: nat)
    requires a.Valid()
  {
    forall i :: 0 <= i < |rows| ==>
      if i < cur then Softmaxed(a, rb + i, h, rows[i]) else ScoredTo(a, rb + i, h, rows[i], a.Pos(rb + i) + 1)
  }

  method StoreRow(scratch: array<seq<Cell>>, g0: nat, cnt: nat, i: nat, row: seq<Cell>)
    requires i < cnt && g0 + cnt <= scratch.Length
    modifies scratch
    ensures scratch[g0..g0 + cnt] == old(scratch[g0..g0 + cnt])[i := row]
    ensures Keeps(old(scratch[..]), scratch[..], g0, g0 + cnt)
  {
    scratch[g0 + i] := row;
  }

  /** What is in the unit's scratch says nothing: it is another unit's, or never written. */
  method Forget(a: Attn, h: nat, rb: nat, scratch: array<seq<Cell>>, g0: nat, cnt: nat)
    requires a.Valid() && g0 + cnt <= scratch.Length
    modifies scratch
    ensures AllScored(a, h, rb, scratch[g0..g0 + cnt], 0, a.Lo(rb))
    ensures Keeps(old(scratch[..]), scratch[..], g0, g0 + cnt)
  {
    forall g | g0 <= g < g0 + cnt { scratch[g] := seq(a.nctx, _ => None); }
    NothingScored(a, h, rb, scratch[g0..g0 + cnt]);
  }

  lemma NothingScored(a: Attn, h: nat, rb: nat, rows: seq<seq<Cell>>)
    requires a.Valid() && forall i :: 0 <= i < |rows| ==> rows[i] == seq(a.nctx, _ => None)
    ensures AllScored(a, h, rb, rows, 0, a.Lo(rb))
  {
    forall i | 0 <= i < |rows| ensures ScoredTo(a, rb + i, h, rows[i], a.Lo(rb)) {
      assert a.Lo(rb) <= a.Lo(rb + i);
    }
  }

  lemma ScoredNext(a: Attn, h: nat, rb: nat, rows: seq<seq<Cell>>, cur: nat, t: nat, row: seq<Cell>)
    requires a.Valid() && AllScored(a, h, rb, rows, cur, t) && cur < |rows| && ScoredTo(a, rb + cur, h, row, t + 4)
    ensures AllScored(a, h, rb, rows[cur := row], cur + 1, t)
  {
    hide ScoredTo;
  }

  /** The block's scores, four positions at a time, every row before the next four. */
  method ScorePass(a: Attn, h: nat, rb: nat, cnt: nat, scratch: array<seq<Cell>>, g0: nat)
    requires a.Valid() && 0 < cnt && rb + cnt <= a.n && g0 + cnt <= scratch.Length
    requires AllScored(a, h, rb, scratch[g0..g0 + cnt], 0, a.Lo(rb))
    modifies scratch
    ensures AllSoft(a, h, rb, scratch[g0..g0 + cnt], 0) && Keeps(old(scratch[..]), scratch[..], g0, g0 + cnt)
  {
    hide ScoredTo, Attn.Valid, Attn.Lo, AllScored;
    var tmax, t := a.Pos(rb + cnt - 1), a.Lo(rb);
    while t <= tmax
      invariant AllScored(a, h, rb, scratch[g0..g0 + cnt], 0, t)
      invariant Keeps(old(scratch[..]), scratch[..], g0, g0 + cnt)
      decreases if t <= tmax then tmax - t + 1 else 0
    {
      for i := 0 to cnt
        invariant AllScored(a, h, rb, scratch[g0..g0 + cnt], i, t)
        invariant Keeps(old(scratch[..]), scratch[..], g0, g0 + cnt)
      {
        RowScored(a, h, rb, scratch[g0..g0 + cnt], i, t);
        var row := ScoreQuad(a, rb + i, h, t, tmax, scratch[g0..g0 + cnt][i]);
        ScoredNext(a, h, rb, scratch[g0..g0 + cnt], i, t, row);
        StoreRow(scratch, g0, cnt, i, row);
      }
      AllFour(a, h, rb, scratch[g0..g0 + cnt], t);
      t := t + 4;
    }
    ScoresDone(a, h, rb, scratch[g0..g0 + cnt], t);
  }

  lemma RowScored(a: Attn, h: nat, rb: nat, rows: seq<seq<Cell>>, i: nat, t: nat)
    requires a.Valid() && AllScored(a, h, rb, rows, i, t) && i < |rows|
    ensures ScoredTo(a, rb + i, h, rows[i], t)
  {
  }

  lemma AllFour(a: Attn, h: nat, rb: nat, rows: seq<seq<Cell>>, t: nat)
    requires a.Valid() && AllScored(a, h, rb, rows, |rows|, t)
    ensures AllScored(a, h, rb, rows, 0, t + 4)
  {
  }

  lemma ScoresDone(a: Attn, h: nat, rb: nat, rows: seq<seq<Cell>>, t: nat)
    requires a.Valid() && AllScored(a, h, rb, rows, 0, t) && |rows| > 0 && t > a.Pos(rb + |rows| - 1)
    ensures AllSoft(a, h, rb, rows, 0)
  {
    forall i | 0 <= i < |rows| ensures ScoredTo(a, rb + i, h, rows[i], a.Pos(rb + i) + 1) {
      assert ScoredTo(a, rb + i, h, rows[i], t);
    }
  }

  // ---- the outputs: row r's head h ----

  ghost function Contents(out: array2<seq<Float>>): (c: seq<seq<seq<Float>>>)
    reads out
    ensures |c| == out.Length0 && forall r :: 0 <= r < |c| ==> |c[r]| == out.Length1
    ensures forall r, k :: 0 <= r < |c| && 0 <= k < out.Length1 ==> c[r][k] == out[r, k]
  {
    seq(out.Length0, r requires 0 <= r < out.Length0 reads out =>
      seq(out.Length1, k requires 0 <= k < out.Length1 reads out => out[r, k]))
  }

  /** Only head h of the rows lo up to hi has changed. */
  ghost predicate OthersKept(now: seq<seq<seq<Float>>>, was: seq<seq<seq<Float>>>, h: nat, lo: nat, hi: nat) {
    && |was| == |now| && (forall r :: 0 <= r < |was| ==> |was[r]| == |now[r]|)
    && forall r, k :: 0 <= r < |was| && 0 <= k < |was[r]| && !(k == h && lo <= r < hi) ==> now[r][k] == was[r][k]
  }

  lemma KeptChain(now: seq<seq<seq<Float>>>, mid: seq<seq<seq<Float>>>, was: seq<seq<seq<Float>>>, h: nat, lo: nat, hi: nat)
    requires OthersKept(now, mid, h, lo, hi) && OthersKept(mid, was, h, lo, hi)
    ensures OthersKept(now, was, h, lo, hi)
  {
  }

  lemma KeptSame(now: seq<seq<seq<Float>>>, h: nat, lo: nat, hi: nat)
    ensures OthersKept(now, now, h, lo, hi)
  {
  }

  /** Head h of the block's rows. */
  ghost function Col(out: array2<seq<Float>>, h: nat, rb: nat, cnt: nat): (c: seq<seq<Float>>)
    requires rb + cnt <= out.Length0 && h < out.Length1
    reads out
    ensures |c| == cnt && forall i :: 0 <= i < cnt ==> c[i] == out[rb + i, h]
  {
    seq(cnt, i requires 0 <= i < cnt reads out => out[rb + i, h])
  }

  method StoreOut(out: array2<seq<Float>>, h: nat, rb: nat, cnt: nat, i: nat, x: seq<Float>)
    requires i < cnt && rb + cnt <= out.Length0 && h < out.Length1
    modifies out
    ensures Col(out, h, rb, cnt) == old(Col(out, h, rb, cnt))[i := x]
    ensures OthersKept(Contents(out), old(Contents(out)), h, rb, rb + cnt)
  {
    out[rb + i, h] := x;
  }

  method ClearOut(a: Attn, out: array2<seq<Float>>, h: nat, rb: nat, cnt: nat)
    requires rb + cnt <= out.Length0 && h < out.Length1
    modifies out
    ensures forall i :: 0 <= i < cnt ==> Col(out, h, rb, cnt)[i] == seq(a.hd, _ => a.o.zero)
    ensures OthersKept(Contents(out), old(Contents(out)), h, rb, rb + cnt)
  {
    forall r | rb <= r < rb + cnt { out[r, h] := seq(a.hd, _ => a.o.zero); }
  }

  /** The block's rows hold their sums before position t, the first `cur` before t + step. */
  ghost predicate AllSummed(a: Attn, h: nat, rb: nat, col: seq<seq<Float>>, cur: nat, t: nat, step: nat)
    requires a.Valid()
  {
    forall i :: 0 <= i < |col| ==>
      col[i] == a.Sum(rb + i, h, a.Before(rb + i, if i < cur then t + step else t))
  }

  lemma ZeroSums(a: Attn, h: nat, rb: nat, col: seq<seq<Float>>, step: nat)
    requires a.Valid() && forall i :: 0 <= i < |col| ==> col[i] == seq(a.hd, _ => a.o.zero)
    ensures AllSummed(a, h, rb, col, 0, a.Lo(rb), step)
  {
    forall i | 0 <= i < |col| ensures col[i] == a.Sum(rb + i, h, a.Before(rb + i, a.Lo(rb))) {
      assert a.Lo(rb) <= a.Lo(rb + i);
    }
  }

  lemma SummedNext(a: Attn, h: nat, rb: nat, col: seq<seq<Float>>, cur: nat, t: nat, step: nat, x: seq<Float>)
    requires a.Valid() && AllSummed(a, h, rb, col, cur, t, step) && cur < |col|
    requires x == a.Sum(rb + cur, h, a.Before(rb + cur, t + step))
    ensures AllSummed(a, h, rb, col[cur := x], cur + 1, t, step)
  {
    hide Attn.Sum, Attn.Before;
  }

  lemma RowSummed(a: Attn, h: nat, rb: nat, col: seq<seq<Float>>, cur: nat, t: nat, step: nat)
    requires a.Valid() && AllSummed(a, h, rb, col, cur, t, step) && cur < |col|
    ensures col[cur] == a.Sum(rb + cur, h, a.Before(rb + cur, t))
  {
    hide Attn.Sum, Attn.Before;
  }

  lemma AllStepped(a: Attn, h: nat, rb: nat, col: seq<seq<Float>>, t: nat, step: nat)
    requires a.Valid() && AllSummed(a, h, rb, col, |col|, t, step)
    ensures AllSummed(a, h, rb, col, 0, t + step, step)
  {
    hide Attn.Sum, Attn.Before;
  }

  lemma SumsDone(a: Attn, h: nat, rb: nat, col: seq<seq<Float>>, t: nat, step: nat)
    requires a.Valid() && AllSummed(a, h, rb, col, 0, t, step) && |col| > 0 && t > a.Pos(rb + |col| - 1)
    ensures forall i :: 0 <= i < |col| ==> col[i] == a.Attend(rb + i, h)
  {
    hide Attn.Sum;
  }

  /** The softmax of every row, and its output cleared. */
  method SoftmaxPass(a: Attn, h: nat, rb: nat, cnt: nat, scratch: array<seq<Cell>>, g0: nat)
    requires a.Valid() && rb + cnt <= a.n && g0 + cnt <= scratch.Length
    requires AllSoft(a, h, rb, scratch[g0..g0 + cnt], 0)
    modifies scratch
    ensures AllSoft(a, h, rb, scratch[g0..g0 + cnt], cnt) && Keeps(old(scratch[..]), scratch[..], g0, g0 + cnt)
  {
    hide ScoredTo, Softmaxed, Attn.Valid, Attn.Lo;
    for i := 0 to cnt
      invariant AllSoft(a, h, rb, scratch[g0..g0 + cnt], i)
      invariant Keeps(old(scratch[..]), scratch[..], g0, g0 + cnt)
    {
      var row := SoftmaxRow(a, rb + i, h, scratch[g0..g0 + cnt][i]);
      StoreRow(scratch, g0, cnt, i, row);
    }
  }

  lemma RowSoft(a: Attn, h: nat, rb: nat, rows: seq<seq<Cell>>, i: nat)
    requires a.Valid() && AllSoft(a, h, rb, rows, |rows|) && i < |rows|
    ensures Softmaxed(a, rb + i, h, rows[i])
  {
  }

  /** The block's values, `step` positions at a time, every row before the next. */
  method ValuePass(a: Attn, h: nat, rb: nat, cnt: nat, rows: seq<seq<Cell>>, out: array2<seq<Float>>, step: nat)
    requires a.Valid() && 0 < cnt == |rows| && rb + cnt <= a.n == out.Length0 && h < out.Length1
    requires AllSoft(a, h, rb, rows, cnt) && step in {4, 8}
    requires AllSummed(a, h, rb, Col(out, h, rb, cnt), 0, a.Lo(rb), step)
    modifies out
    ensures forall i :: 0 <= i < cnt ==> Col(out, h, rb, cnt)[i] == a.Attend(rb + i, h)
    ensures OthersKept(Contents(out), old(Contents(out)), h, rb, rb + cnt)
  {
    hide AllSoft, AllSummed, Softmaxed, Attn.Valid, Attn.Lo, Attn.Before, Attn.Sum, Attn.Attend, OthersKept, Contents, Col;
    KeptSame(Contents(out), h, rb, rb + cnt);
    var tmax, t := a.Pos(rb + cnt - 1), a.Lo(rb);
    while t <= tmax
      invariant AllSummed(a, h, rb, Col(out, h, rb, cnt), 0, t, step)
      invariant OthersKept(Contents(out), old(Contents(out)), h, rb, rb + cnt)
      decreases if t <= tmax then tmax - t + 1 else 0
    {
      for i := 0 to cnt
        invariant AllSummed(a, h, rb, Col(out, h, rb, cnt), i, t, step)
        invariant OthersKept(Contents(out), old(Contents(out)), h, rb, rb + cnt)
      {
        ghost var was := Contents(out);
        RowSoft(a, h, rb, rows, i);
        RowSummed(a, h, rb, Col(out, h, rb, cnt), i, t, step);
        var x := AddPositions(a, rb + i, h, t, step, tmax, rows[i], out[rb + i, h]);
        SummedNext(a, h, rb, Col(out, h, rb, cnt), i, t, step, x);
        StoreOut(out, h, rb, cnt, i, x);
        KeptChain(Contents(out), was, old(Contents(out)), h, rb, rb + cnt);
      }
      AllStepped(a, h, rb, Col(out, h, rb, cnt), t, step);
      t := t + step;
    }
    SumsDone(a, h, rb, Col(out, h, rb, cnt), t, step);
  }

  // ---- the units: a head and a block of R rows ----

  /** The grid of units; unit u's scratch is its own R rows, from u * R. */
  datatype Units = Units(H: nat, n: nat, R: nat)
  {
    predicate Valid() { R > 0 && n > 0 }

    function Blocks(): nat
      requires Valid()
    {
      CeilDiv(n, R)
    }

    function Count(): nat
      requires Valid()
    {
      H * Blocks()
    }

    function Head(u: nat): nat
      requires Valid()
    {
      u / Blocks()
    }

    /** The first row of unit u's block, and how many it has. */
    function First(u: nat): nat
      requires Valid()
    {
      u % Blocks() * R
    }

    function Rows(u: nat): nat
      requires Valid()
    {
      if First(u) + R < n then R else if First(u) < n then n - First(u) else 0
    }

    function Scratch(u: nat): nat { u * R }

    /** The unit that row r of head h belongs to. */
    function Of(r: nat, h: nat): int
      requires Valid()
    {
      h * Blocks() + r / R
    }

    lemma Place(u: nat)
      requires Valid() && u < Count()
      ensures Head(u) < H && First(u) < n && 0 < Rows(u) <= R && First(u) + Rows(u) <= n
      ensures Scratch(u) + R <= Scratch(Count())
    {
      var b, only := Blocks(), u % Blocks();
      DivBelow(u, H, b);
      MulLe(R, only, b - 1);
      MulMono(R, u, Count());
    }

    /** A row and head belong to unit u exactly when u is their head and block: the units
        partition the work. */
    lemma Partition(r: nat, h: nat, u: nat)
      requires Valid() && r < n && h < H && u < Count()
      ensures Of(r, h) < Count()
      ensures Of(r, h) == u <==> h == Head(u) && First(u) <= r < First(u) + Rows(u)
    {
      hide CeilDiv;
      assert n <= Blocks() * R && Blocks() > 0;
      UnitPart(R, Blocks(), H, r, h, u);
    }

    /** No two units share a row of scratch. */
    lemma ScratchDisjoint(u: nat, v: nat)
      requires u < v
      ensures Scratch(u) + R <= Scratch(v)
    {
      MulMono(R, u, v);
    }
  }

  /** Row r of head h is in unit u exactly when u's digits are the head and the row's block. */
  lemma UnitPart(R: nat, b: nat, H: nat, r: nat, h: nat, u: nat)
    requires R > 0 && b > 0 && r < b * R && h < H && u < H * b
    ensures 0 <= h * b + r / R < H * b
    ensures h * b + r / R == u <==> h == u / b && u % b * R <= r < u % b * R + R
  {
    DivBelow(r, b, R);
    BelowAll(b, H, h, r / R);
    var head, only := Split(b, u);
    DivMod(b, head, only);
    UnitOf(R, b, r, h, head, only);
  }

  lemma BelowAll(b: nat, H: nat, h: nat, q: nat)
    requires h < H && q < b
    ensures 0 <= h * b + q < H * b
  {
    MulMono(b, h, H);
    assert b * h == h * b && b * H == H * b;
  }

  lemma UnitOf(R: nat, b: nat, r: nat, h: nat, head: nat, only: nat)
    requires R > 0 && r / R < b && only < b
    ensures h * b + r / R == head * b + only <==> h == head && only * R <= r < only * R + R
  {
    var q, x := Split(R, r);
    DivMod(R, q, x);
    SameUnit(b, h, q, head, only);
    SameBlock(R, q, x, only);
  }

  lemma SameUnit(b: nat, h: nat, q: nat, h': nat, q': nat)
    requires q < b && q' < b
    ensures h * b + q == h' * b + q' <==> h == h' && q == q'
  {
    if h * b + q == h' * b + q' { SplitUnique(b, h, q, h', q'); }
  }

  /** Row q * R + x is in block k exactly when q is k. */
  lemma SameBlock(R: nat, q: nat, x: nat, k: nat)
    requires x < R
    ensures q == k <==> k * R <= q * R + x < k * R + R
  {
    if k * R <= q * R + x < k * R + R { SplitUnique(R, q, x, k, q * R + x - k * R); }
  }

  /** The scratch is reallocated unless it had as many rows a unit and as many units: kept,
      it is always large enough. */
  lemma KeptScratchFits(haveRows: nat, haveUnits: nat, rows: nat, units: nat, nctx: nat)
    requires haveRows >= rows && haveUnits >= units
    ensures units * rows * nctx <= haveUnits * haveRows * nctx
  {
    MulLe(units, rows, haveRows);
    MulLe(haveRows, units, haveUnits);
    MulLe(nctx, units * rows, haveUnits * haveRows);
  }

  // ---- attn_block_heads ----

  method BlockUnit(a: Attn, g: Units, u: nat, scratch: array<seq<Cell>>, out: array2<seq<Float>>, step: nat)
    requires a.Valid() && g.Valid() && g.n == a.n && g.H == a.H && u < g.Count() && step in {4, 8}
    requires out.Length0 == a.n && out.Length1 == a.H && scratch.Length >= g.Scratch(g.Count())
    modifies scratch, out
    ensures g.Scratch(u) + g.R <= scratch.Length && Keeps(old(scratch[..]), scratch[..], g.Scratch(u), g.Scratch(u) + g.R)
    ensures UnitDone(a, g.Head(u), g.First(u), g.Rows(u), Contents(out), old(Contents(out)))
  {
    hide Attn.Valid, AllScored, AllSoft, AllSummed, Units.Head, Units.First, Units.Rows, Units.Scratch, Units.Count;
    hide Attn.Attend, Attn.Lo, OthersKept, Contents, Col, UnitDone;
    g.Place(u);
    var h, rb, cnt, g0 := g.Head(u), g.First(u), g.Rows(u), g.Scratch(u);
    Forget(a, h, rb, scratch, g0, cnt);
    ScorePass(a, h, rb, cnt, scratch, g0);
    SoftmaxPass(a, h, rb, cnt, scratch, g0);
    ClearOut(a, out, h, rb, cnt);
    ZeroSums(a, h, rb, Col(out, h, rb, cnt), step);
    ghost var was := Contents(out);
    ValuePass(a, h, rb, cnt, scratch[g0..g0 + cnt], out, step);
    KeptChain(Contents(out), was, old(Contents(out)), h, rb, rb + cnt);
    UnitIsDone(a, h, rb, cnt, out, old(Contents(out)));
  }

  /** The unit's rows hold their attention; every other row and head is as it was. */
  ghost predicate UnitDone(a: Attn, h: nat, rb: nat, cnt: nat, now: seq<seq<seq<Float>>>, was: seq<seq<seq<Float>>>)
    requires a.Valid()
  {
    && OthersKept(now, was, h, rb, rb + cnt)
    && forall r :: rb <= r < rb + cnt && r < |now| && h < |now[r]| ==> now[r][h] == a.Attend(r, h)
  }

  lemma UnitIsDone(a: Attn, h: nat, rb: nat, cnt: nat, out: array2<seq<Float>>, was: seq<seq<seq<Float>>>)
    requires a.Valid() && rb + cnt <= out.Length0 && h < out.Length1 && OthersKept(Contents(out), was, h, rb, rb + cnt)
    requires forall i :: 0 <= i < cnt ==> Col(out, h, rb, cnt)[i] == a.Attend(rb + i, h)
    ensures UnitDone(a, h, rb, cnt, Contents(out), was)
  {
    forall r | rb <= r < rb + cnt ensures Contents(out)[r][h] == a.Attend(r, h) {
      assert Col(out, h, rb, cnt)[r - rb] == a.Attend(rb + (r - rb), h);
    }
  }

  /** Exactly the rows and heads of the units u0 up to u hold their attention. */
  ghost predicate RangeDone(a: Attn, g: Units, u0: nat, u: nat, now: seq<seq<seq<Float>>>, was: seq<seq<seq<Float>>>)
    requires a.Valid() && g.Valid()
  {
    && |now| == |was| == g.n && (forall r :: 0 <= r < g.n ==> |now[r]| == |was[r]| == g.H)
    && forall r, h :: 0 <= r < g.n && 0 <= h < g.H ==> now[r][h] == if u0 <= g.Of(r, h) < u then a.Attend(r, h) else was[r][h]
  }

  lemma RangeNext(a: Attn, g: Units, u0: nat, u: nat, now: seq<seq<seq<Float>>>, mid: seq<seq<seq<Float>>>, was: seq<seq<seq<Float>>>)
    requires a.Valid() && g.Valid() && u0 <= u < g.Count() && RangeDone(a, g, u0, u, mid, was)
    requires UnitDone(a, g.Head(u), g.First(u), g.Rows(u), now, mid)
    ensures RangeDone(a, g, u0, u + 1, now, was)
  {
    hide Attn.Valid, Attn.Attend, Units.Valid, Units.Count, Units.Head, Units.First, Units.Rows, Units.Of;
    forall r, h | 0 <= r < g.n && 0 <= h < g.H
      ensures now[r][h] == if u0 <= g.Of(r, h) < u + 1 then a.Attend(r, h) else was[r][h]
    {
      g.Partition(r, h, u);
    }
  }

  /** Any range of units, on any worker: its own rows and heads get their attention, and
      nothing outside its outputs and its scratch is touched. */
  method BlockHeads(a: Attn, g: Units, u0: nat, nu: nat, scratch: array<seq<Cell>>, out: array2<seq<Float>>, step: nat)
    requires a.Valid() && g.Valid() && g.n == a.n && g.H == a.H && u0 + nu <= g.Count() && step in {4, 8}
    requires out.Length0 == a.n && out.Length1 == a.H && scratch.Length >= g.Scratch(g.Count())
    modifies scratch, out
    ensures Keeps(old(scratch[..]), scratch[..], g.Scratch(u0), g.Scratch(u0 + nu))
    ensures RangeDone(a, g, u0, u0 + nu, Contents(out), old(Contents(out)))
  {
    hide Attn.Valid, Attn.Attend, Units.Valid, Units.Count, Units.Head, Units.First, Units.Rows, Units.Of, Units.Scratch;
    hide UnitDone, Contents;
    NoUnits(a, g, u0, out);
    for u := u0 to u0 + nu
      invariant Keeps(old(scratch[..]), scratch[..], g.Scratch(u0), g.Scratch(u))
      invariant RangeDone(a, g, u0, u, Contents(out), old(Contents(out)))
    {
      ghost var mid, was := Contents(out), scratch[..];
      BlockUnit(a, g, u, scratch, out, step);
      RangeNext(a, g, u0, u, Contents(out), mid, old(Contents(out)));
      ScratchNext(g, u0, u, old(scratch[..]), was, scratch[..]);
    }
  }

  lemma NoUnits(a: Attn, g: Units, u0: nat, out: array2<seq<Float>>)
    requires a.Valid() && g.Valid() && out.Length0 == g.n && out.Length1 == g.H
    ensures RangeDone(a, g, u0, u0, Contents(out), Contents(out))
  {
  }

  lemma ScratchNext<T>(g: Units, u0: nat, u: nat, was: seq<T>, mid: seq<T>, now: seq<T>)
    requires u0 <= u && Keeps(was, mid, g.Scratch(u0), g.Scratch(u)) && Keeps(mid, now, g.Scratch(u), g.Scratch(u) + g.R)
    ensures Keeps(was, now, g.Scratch(u0), g.Scratch(u + 1))
  {
    assert g.Scratch(u + 1) == g.Scratch(u) + g.R;
    if u0 < u { MulMono(g.R, u0, u); }
  }

  /** All the units: every row and head. */
  method AttnBlock(a: Attn, g: Units, scratch: array<seq<Cell>>, out: array2<seq<Float>>, step: nat)
    requires a.Valid() && g.Valid() && g.n == a.n && g.H == a.H && step in {4, 8}
    requires out.Length0 == a.n && out.Length1 == a.H && scratch.Length >= g.Scratch(g.Count())
    modifies scratch, out
    ensures forall r, h :: 0 <= r < a.n && 0 <= h < a.H ==> out[r, h] == a.Attend(r, h)
  {
    hide Attn.Attend, Attn.Valid, Units.Of, Units.Count, Units.Scratch, RangeDone;
    BlockHeads(a, g, 0, g.Count(), scratch, out, step);
    RangeIsAll(a, g, out, old(Contents(out)));
  }

  lemma RangeIsAll(a: Attn, g: Units, out: array2<seq<Float>>, was: seq<seq<seq<Float>>>)
    requires a.Valid() && g.Valid() && out.Length0 == g.n && out.Length1 == g.H
    requires RangeDone(a, g, 0, g.Count(), Contents(out), was)
    ensures forall r, h :: 0 <= r < g.n && 0 <= h < g.H ==> out[r, h] == a.Attend(r, h)
  {
    hide Attn.Attend, Attn.Valid, Units.Of, Units.Count;
    forall r, h | 0 <= r < g.n && 0 <= h < g.H ensures out[r, h] == a.Attend(r, h) {
      OfInside(g, r, h);
      assert Contents(out)[r][h] == out[r, h];
    }
  }

  lemma OfInside(g: Units, r: nat, h: nat)
    requires g.Valid() && r < g.n && h < g.H
    ensures 0 <= g.Of(r, h) < g.Count()
  {
    hide CeilDiv;
    assert g.n <= g.Blocks() * g.R && g.Blocks() > 0;
    BelowAll(g.Blocks(), g.H, 0, 0);
    UnitPart(g.R, g.Blocks(), g.H, r, h, 0);
  }

  // ---- attn_heads: one row, the queries of a kv head together ----

  /** The window's positions before hi carry their scores, whatever else the row holds. */
  ghost predicate WindowScored(a: Attn, r: nat, h: nat, row: seq<Cell>, hi: nat)
    requires a.Valid()
  {
    && |row| == a.nctx
    && forall t :: a.Lo(r) <= t <= a.Pos(r) && t < hi && t < |row| ==> row[t] == Some(a.Score(r, h, t))
  }

  ghost predicate TokScored(a: Attn, r: nat, g0: nat, rows: seq<seq<Cell>>, cur: nat, t: nat)
    requires a.Valid()
  {
    forall q :: 0 <= q < |rows| ==> WindowScored(a, r, g0 + q, rows[q], if q < cur then t + 1 else t)
  }

  ghost predicate TokSummed(a: Attn, r: nat, g0: nat, xs: seq<seq<Float>>, cur: nat, t: nat)
    requires a.Valid()
  {
    forall q :: 0 <= q < |xs| ==> xs[q] == a.Sum(r, g0 + q, a.Before(r, if q < cur then t + 1 else t))
  }

  ghost predicate TokSoft(a: Attn, r: nat, g0: nat, rows: seq<seq<Cell>>, cur: nat)
    requires a.Valid()
  {
    forall q :: 0 <= q < |rows| ==>
      if q < cur then Softmaxed(a, r, g0 + q, rows[q]) else WindowScored(a, r, g0 + q, rows[q], a.Pos(r) + 1)
  }

  /** The queries of one kv head: every position of the window for each of them in turn. */
  method TokenScores(a: Attn, r: nat, g0: nat, n: nat, kv: nat, att: array<seq<Cell>>)
    requires a.Valid() && r < a.n && g0 + n <= att.Length && SharesKv(a, g0, n, kv)
    requires forall g :: g0 <= g < g0 + n ==> |att[g]| == a.nctx
    modifies att
    ensures TokScored(a, r, g0, att[g0..g0 + n], 0, a.Pos(r) + 1) && Keeps(old(att[..]), att[..], g0, g0 + n)
  {
    hide Attn.Lo, Attn.Score;
    for t := a.Lo(r) to a.Pos(r) + 1
      invariant TokScored(a, r, g0, att[g0..g0 + n], 0, t) && Keeps(old(att[..]), att[..], g0, g0 + n)
    {
      for q := 0 to n
        invariant TokScored(a, r, g0, att[g0..g0 + n], q, t) && Keeps(old(att[..]), att[..], g0, g0 + n)
      {
        ghost var rows := att[g0..g0 + n];
        assert WindowScored(a, r, g0 + q, rows[q], t);
        var row := att[g0 + q][t := Some(a.o.mul(a.dot(r, g0 + q, kv, t), a.scale))];
        OneScore(a, r, g0 + q, kv, t, att[g0 + q], row);
        TokScoredNext(a, r, g0, rows, q, t, row);
        StoreRow(att, g0, n, q, row);
      }
    }
  }

  lemma OneScore(a: Attn, r: nat, h: nat, kv: nat, t: nat, row: seq<Cell>, row': seq<Cell>)
    requires a.Valid() && WindowScored(a, r, h, row, t) && h / a.gqa == kv && t < |row|
    requires row' == row[t := Some(a.o.mul(a.dot(r, h, kv, t), a.scale))]
    ensures WindowScored(a, r, h, row', t + 1)
  {
  }

  lemma TokScoredNext(a: Attn, r: nat, g0: nat, rows: seq<seq<Cell>>, q: nat, t: nat, row: seq<Cell>)
    requires a.Valid() && TokScored(a, r, g0, rows, q, t) && q < |rows| && WindowScored(a, r, g0 + q, row, t + 1)
    ensures TokScored(a, r, g0, rows[q := row], q + 1, t)
  {
    hide WindowScored;
  }

  method TokenSoftmax(a: Attn, r: nat, g0: nat, n: nat, att: array<seq<Cell>>)
    requires a.Valid() && r < a.n && g0 + n <= att.Length && TokScored(a, r, g0, att[g0..g0 + n], 0, a.Pos(r) + 1)
    modifies att
    ensures TokSoft(a, r, g0, att[g0..g0 + n], n) && Keeps(old(att[..]), att[..], g0, g0 + n)
  {
    hide Softmaxed, WindowScored;
    for q := 0 to n
      invariant TokSoft(a, r, g0, att[g0..g0 + n], q) && Keeps(old(att[..]), att[..], g0, g0 + n)
    {
      var row := SoftmaxToken(a, r, g0 + q, att[g0..g0 + n][q]);
      StoreRow(att, g0, n, q, row);
    }
  }

  method SoftmaxToken(a: Attn, r: nat, h: nat, row: seq<Cell>) returns (row': seq<Cell>)
    requires a.Valid() && r < a.n && WindowScored(a, r, h, row, a.Pos(r) + 1)
    ensures Softmaxed(a, r, h, row')
  {
    var lo, len := a.Lo(r), a.Pos(r) + 1 - a.Lo(r);
    var s := ReadWindow(row, lo, len);
    assert s == a.Scores(r, h);
    var p := a.softmax(s);
    row' := seq(|row|, t requires 0 <= t < |row| => if lo <= t < lo + len then Some(p[t - lo]) else row[t]);
  }

  method TokenValues(a: Attn, r: nat, g0: nat, n: nat, rows: seq<seq<Cell>>, xb: array<seq<Float>>)
    requires a.Valid() && r < a.n && g0 + n <= xb.Length && |rows| == n && TokSoft(a, r, g0, rows, n)
    modifies xb
    ensures TokDone(a, r, g0, xb[g0..g0 + n])
    ensures Keeps(old(xb[..]), xb[..], g0, g0 + n)
  {
    hide Softmaxed, Attn.Sum, Attn.Lo;
    forall g | g0 <= g < g0 + n { xb[g] := seq(a.hd, _ => a.o.zero); }
    TokZero(a, r, g0, xb[g0..g0 + n]);
    for t := a.Lo(r) to a.Pos(r) + 1
      invariant TokSummed(a, r, g0, xb[g0..g0 + n], 0, t) && Keeps(old(xb[..]), xb[..], g0, g0 + n)
    {
      for q := 0 to n
        invariant TokSummed(a, r, g0, xb[g0..g0 + n], q, t) && Keeps(old(xb[..]), xb[..], g0, g0 + n)
      {
        assert Softmaxed(a, r, g0 + q, rows[q]);
        ghost var xs := xb[g0..g0 + n];
        assert xs[q] == a.Sum(r, g0 + q, a.Before(r, t));
        var x := AddOne(a, r, g0 + q, t, rows[q], xb[g0 + q]);
        xb[g0 + q] := x;
        TokSummedNext(a, r, g0, xs, q, t, x);
        assert xb[g0..g0 + n] == xs[q := x];
      }
    }
    TokSumsDone(a, r, g0, xb[g0..g0 + n]);
  }

  ghost predicate TokDone(a: Attn, r: nat, g0: nat, xs: seq<seq<Float>>)
    requires a.Valid()
  {
    forall q :: 0 <= q < |xs| ==> xs[q] == a.Attend(r, g0 + q)
  }

  lemma TokSumsDone(a: Attn, r: nat, g0: nat, xs: seq<seq<Float>>)
    requires a.Valid() && TokSummed(a, r, g0, xs, 0, a.Pos(r) + 1)
    ensures TokDone(a, r, g0, xs)
  {
    hide Attn.Sum;
  }

  lemma TokJoin(a: Attn, r: nat, g0: nat, xs: seq<seq<Float>>, ys: seq<seq<Float>>)
    requires a.Valid() && TokDone(a, r, g0, xs) && TokDone(a, r, g0 + |xs|, ys)
    ensures TokDone(a, r, g0, xs + ys)
  {
    hide Attn.Attend;
    forall q | 0 <= q < |xs + ys| ensures (xs + ys)[q] == a.Attend(r, g0 + q) {
      if q >= |xs| { assert ys[q - |xs|] == a.Attend(r, g0 + |xs| + (q - |xs|)); }
    }
  }

  lemma TokZero(a: Attn, r: nat, g0: nat, xs: seq<seq<Float>>)
    requires a.Valid() && forall q :: 0 <= q < |xs| ==> xs[q] == seq(a.hd, _ => a.o.zero)
    ensures TokSummed(a, r, g0, xs, 0, a.Lo(r))
  {
  }

  lemma TokSummedNext(a: Attn, r: nat, g0: nat, xs: seq<seq<Float>>, q: nat, t: nat, x: seq<Float>)
    requires a.Valid() && TokSummed(a, r, g0, xs, q, t) && q < |xs| && x == a.Sum(r, g0 + q, a.Before(r, t + 1))
    ensures TokSummed(a, r, g0, xs[q := x], q + 1, t)
  {
    hide Attn.Sum, Attn.Before;
  }

  /** Row r, heads h0 up to h0 + nh, a kv head's queries at a time: each head gets the same
      floats the block form makes. */
  method TokenHeads(a: Attn, r: nat, h0: nat, nh: nat, att: array<seq<Cell>>, xb: array<seq<Float>>)
    requires a.Valid() && r < a.n && h0 + nh <= att.Length && h0 + nh <= xb.Length
    requires forall g :: 0 <= g < att.Length ==> |att[g]| == a.nctx
    modifies att, xb
    ensures TokDone(a, r, h0, xb[h0..h0 + nh]) && Keeps(old(xb[..]), xb[..], h0, h0 + nh)
  {
    hide TokSoft, TokScored, TokDone, SharesKv;
    var h, end := h0, h0 + nh;
    NoneDone(a, r, h0);
    assert xb[h0..h] == [];
    while h < end
      invariant h0 <= h <= end && TokDone(a, r, h0, xb[h0..h]) && Keeps(old(xb[..]), xb[..], h0, h)
      invariant forall g :: h <= g < att.Length ==> |att[g]| == a.nctx
      decreases end - h
    {
      ghost var done := xb[h0..h];
      var kv, g1 := KvGroup(a, h, end);
      OneGroup(a, r, h, g1 - h, kv, att, xb);
      assert xb[h0..h] == done && xb[h0..g1] == done + xb[h..h + (g1 - h)];
      TokJoin(a, r, h0, done, xb[h..h + (g1 - h)]);
      h := g1;
    }
  }

  lemma NoneDone(a: Attn, r: nat, g0: nat)
    requires a.Valid()
    ensures TokDone(a, r, g0, [])
  {
  }

  ghost predicate SharesKv(a: Attn, g0: nat, n: nat, kv: nat)
    requires a.Valid()
  {
    forall h :: g0 <= h < g0 + n ==> h / a.gqa == kv
  }

  /** Where the queries of h's kv head end, or the range does. */
  method KvGroup(a: Attn, h: nat, end: nat) returns (kv: nat, g1: nat)
    requires a.Valid() && h < end
    ensures h < g1 <= end && SharesKv(a, h, g1 - h, kv)
  {
    kv := h / a.gqa;
    g1 := (kv + 1) * a.gqa;
    SameKv(a.gqa, h);
    if g1 > end { g1 := end; }
  }

  method OneGroup(a: Attn, r: nat, g0: nat, n: nat, kv: nat, att: array<seq<Cell>>, xb: array<seq<Float>>)
    requires a.Valid() && r < a.n && g0 + n <= att.Length && g0 + n <= xb.Length
    requires SharesKv(a, g0, n, kv) && forall g :: g0 <= g < g0 + n ==> |att[g]| == a.nctx
    modifies att, xb
    ensures TokDone(a, r, g0, xb[g0..g0 + n]) && Keeps(old(xb[..]), xb[..], g0, g0 + n)
    ensures Keeps(old(att[..]), att[..], g0, g0 + n)
  {
    hide TokSoft, TokScored, TokDone, Attn.Valid;
    TokenScores(a, r, g0, n, kv, att);
    ghost var mid := att[..];
    TokenSoftmax(a, r, g0, n, att);
    TokenValues(a, r, g0, n, att[g0..g0 + n], xb);
  }

  /** The queries from h up to the next multiple of gqa share h's kv head. */
  lemma SameKv(gqa: nat, h: nat)
    requires gqa > 0
    ensures h < (h / gqa + 1) * gqa
    ensures forall k :: h <= k < (h / gqa + 1) * gqa ==> k / gqa == h / gqa
  {
    var q, x := Split(gqa, h);
    DivMod(gqa, q, x);
    forall k | h <= k < (q + 1) * gqa ensures k / gqa == q { DivMod(gqa, q, k - q * gqa); }
  }
}
