/** A matmul's rows in chunks: as many as the input surface allows, and never a last one alone. */
module RowChunks {
  import opened IndexArith
  import opened KSlice

  const ENTRIES := 8192   // exact input surface of a dispatch, in entries of 32

  /** rows_fit: the smaller of the cap and what a dispatch's surface allows at this K. */
  function RowsFit(k: nat, kmax: nat, cap: nat): nat {
    var ks := if k < kmax then k else kmax;
    var bySurface := if ks >= 32 then ENTRIES * 32 / ks else cap;
    var floored := if bySurface < 2 then 2 else bySurface;
    if floored < cap then floored else cap
  }

  /** A chunk's surface fits every dispatch of a K cut so. */
  ghost predicate Fits(c: Cut, cap: nat)
    requires c.Valid()
  {
    forall ki: nat :: ki < c.Count() ==> c.Kw(ki) * RowsFit(c.k, c.kmax, cap) <= ENTRIES * 32
  }

  /** Does the last slice take the remainder on top of its own width? */
  predicate Absorbs(c: Cut)
    requires c.Valid()
  {
    c.kfit && c.k > c.kmax && c.k % c.kmax != 0
  }

  /** Exactly then the last slice is wider than KMAX. */
  lemma AbsorbsExactly(c: Cut)
    requires c.Valid() && c.kfit
    ensures Absorbs(c) <==> c.Kw(c.Count() - 1) > c.kmax
  {
    var ks := CeilDiv(c.k, c.kmax);
    assert (ks - 1) * c.kmax == ks * c.kmax - c.kmax && (ks - 2) * c.kmax == ks * c.kmax - 2 * c.kmax;
    if ks > 1 { MulLe(c.kmax, 1, ks - 1); }
  }

  /** It fits exactly when it fits the first dispatch and the last. */
  lemma FitsExactly(c: Cut, cap: nat)
    requires c.Valid()
    ensures Fits(c, cap) <==> Max(c.Kw(0), c.Kw(c.Count() - 1)) * RowsFit(c.k, c.kmax, cap) <= ENTRIES * 32
  {
    hide Cut.Base, RowsFit;
    var rows, last := RowsFit(c.k, c.kmax, cap), c.Count() - 1;
    c.Tiles(0);
    c.Tiles(last);
    var w := Max(c.Kw(0), c.Kw(last));
    if w * rows <= ENTRIES * 32 {
      forall ki: nat | ki < c.Count() ensures c.Kw(ki) * rows <= ENTRIES * 32 {
        c.Tiles(ki);
        MulLe(rows, c.Kw(ki), w);
      }
    } else {
      assert !(c.Kw(0) * rows <= ENTRIES * 32) || !(c.Kw(last) * rows <= ENTRIES * 32);
    }
  }

  /** Where no slice absorbs a remainder, a chunk's surface fits every dispatch unless the
      floor of two lifted the chunk. */
  lemma ChunkFits(c: Cut, cap: nat)
    requires c.Valid() && !Absorbs(c) && 32 <= Min(c.k, c.kmax) <= ENTRIES * 32 / 2
    ensures Fits(c, cap)
  {
    hide Cut.Base, Cut.Kw, Cut.Count;
    var ks := Min(c.k, c.kmax);
    var fit := ENTRIES * 32 / ks;
    assert fit >= 2 by { MulLe(ks, 2, 2); }
    forall ki: nat | ki < c.Count() ensures c.Kw(ki) * RowsFit(c.k, c.kmax, cap) <= ENTRIES * 32 {
      c.Tiles(ki);
      NarrowEnough(c, ki);
      MulLe(c.Kw(ki), RowsFit(c.k, c.kmax, cap), fit);
      MulLe(fit, c.Kw(ki), ks);
    }
  }

  lemma NarrowEnough(c: Cut, ki: nat)
    requires c.Valid() && !Absorbs(c) && ki < c.Count()
    ensures c.Kw(ki) <= Min(c.k, c.kmax)
  {
    InsideK(c, ki);
    if !c.kfit {
      c.WidestBounds(ki);
    } else if c.k <= c.kmax {
      OneSlice(c);
    } else {
      c.LastStart();
    }
  }

  lemma OneSlice(c: Cut)
    requires c.Valid() && c.k <= c.kmax
    ensures c.Count() == 1
  {
    hide CeilDiv;
    var ks := CeilDiv(c.k, c.kmax);
    if ks > 1 { MulLe(c.kmax, 1, ks - 1); }
  }

  /** No slice is wider than K. */
  lemma InsideK(c: Cut, ki: nat)
    requires c.Valid() && ki < c.Count()
    ensures c.Kw(ki) <= c.k
  {
    hide Cut.Base;
    c.Tiles(ki);
    c.Tiles(0);
    if ki + 1 < c.Count() {
      c.LastIsLeft();
      MulLe(c.Width(), ki + 1, c.Count() - 1);
    }
  }

  /** The limit is worked out from K and KMAX, so it does not know of a last slice that is
      wider: the surface then fits exactly when that slice does. */
  lemma AbsorbedExactly(c: Cut, cap: nat)
    requires c.Valid() && Absorbs(c)
    ensures Fits(c, cap) <==> (c.k - (c.Count() - 1) * c.kmax) * RowsFit(c.k, c.kmax, cap) <= ENTRIES * 32
  {
    FitsExactly(c, cap);
    WideLast(c);
  }

  lemma WideLast(c: Cut)
    requires c.Valid() && Absorbs(c)
    ensures c.Kw(0) <= c.Kw(c.Count() - 1) == c.k - (c.Count() - 1) * c.kmax
  {
    c.LastStart();
  }

  /** And it need not: 8160 columns go out in one dispatch, 64 rows at a time, as if there were
      4096. */
  lemma AbsorbedOverruns()
    ensures !Fits(Cut(8160, 4096, false, true), 80)
  {
    AbsorbedExactly(Cut(8160, 4096, false, true), 80);
  }

  /** rows_next. */
  function RowsNext(rem: nat, chunk: nat): (c: nat)
    ensures rem > 0 && chunk > 0 ==> 0 < c <= rem && c <= chunk
  {
    var c := if rem < chunk then rem else chunk;
    if rem - c == 1 && c > 2 then c - 1 else c
  }

  /** The limit is the cap, or as many rows of the wider dispatch as the surface holds, two at
      the least: one more would be past either. */
  lemma LimitIs(k: nat, kmax: nat, cap: nat)
    requires Min(k, kmax) >= 32
    ensures var c, ks := RowsFit(k, kmax, cap), Min(k, kmax);
            c <= cap && (c == cap || (c >= 2 && (c + 1) * ks > 8192 * 32)) && (c <= 2 || c * ks <= 8192 * 32)
  {
    var ks := Min(k, kmax);
    var fit, c := ENTRIES * 32 / ks, RowsFit(k, kmax, cap);
    Quotient(ENTRIES * 32, ks);
    if c >= fit { MulLe(ks, fit + 1, c + 1); }
    if c <= fit { MulLe(ks, c, fit); }
  }

  /** A narrower K than an entry has no limit but the cap. */
  lemma NarrowLimit(k: nat, kmax: nat, cap: nat)
    requires Min(k, kmax) < 32
    ensures RowsFit(k, kmax, cap) == cap
  {
  }

  /** As many as are left and allowed, or one fewer where that would leave one row alone. */
  lemma NextIs(rem: nat, chunk: nat)
    ensures RowsNext(rem, chunk) == Min(rem, chunk) - if rem == chunk + 1 && chunk > 2 then 1 else 0
  {
  }

  /** The chunks m rows are walked in. */
  function Walk(m: nat, chunk: nat): (cs: seq<nat>)
    requires chunk > 0
    decreases m
  {
    if m == 0 then [] else [RowsNext(m, chunk)] + Walk(m - RowsNext(m, chunk), chunk)
  }

  function Sum(cs: seq<nat>): nat { if cs == [] then 0 else cs[0] + Sum(cs[1..]) }

  /** The chunks are the rows, every one within the limit. */
  lemma {:induction false} WalkCovers(m: nat, chunk: nat)
    requires chunk > 0
    ensures Sum(Walk(m, chunk)) == m
    ensures forall i :: 0 <= i < |Walk(m, chunk)| ==> 0 < Walk(m, chunk)[i] <= chunk
    decreases m
  {
    if m > 0 {
      var c := RowsNext(m, chunk);
      WalkCovers(m - c, chunk);
      assert Walk(m, chunk)[1..] == Walk(m - c, chunk);
    }
  }

  predicate Lonely(m: nat, chunk: nat)
    requires chunk > 0
  {
    exists i :: 0 <= i < |Walk(m, chunk)| && Walk(m, chunk)[i] == 1
  }

  /** One of the chunks is a row alone if the first is or one of the rest. */
  lemma LonelyFirst(m: nat, chunk: nat)
    requires chunk > 0 && m > 0
    ensures Lonely(m, chunk) <==> RowsNext(m, chunk) == 1 || Lonely(m - RowsNext(m, chunk), chunk)
  {
    hide RowsNext;
    var c := RowsNext(m, chunk);
    var rest := Walk(m - c, chunk);
    assert Walk(m, chunk)[0] == c && Walk(m, chunk)[1..] == rest;
    if Lonely(m - c, chunk) {
      var i :| 0 <= i < |rest| && rest[i] == 1;
      assert Walk(m, chunk)[i + 1] == 1;
    }
  }

  lemma NoChunks(chunk: nat)
    requires chunk > 0
    ensures !Lonely(0, chunk)
  {
  }

  /** No chunk is a single row, exactly when there is no row at all, or at least two with a
      chunk of three or more, or an even number with a chunk of two. */
  lemma {:induction false} NoLonelyRow(m: nat, chunk: nat)
    requires chunk > 0
    ensures !Lonely(m, chunk) <==> m == 0 || (m >= 2 && chunk >= 3) || (m % 2 == 0 && chunk == 2)
    decreases m
  {
    hide Walk;
    if m > 0 {
      LonelyFirst(m, chunk);
      NoLonelyRow(m - RowsNext(m, chunk), chunk);
    } else {
      NoChunks(chunk);
    }
  }
}
