/**
 Where the accumulator surface keeps row mi, channel ni of an m row batch, in the two
 read orders: the default one, and the one int4 weights on the width axis use.
 */
module AccIndex {
  import opened IndexArith

  /** charsiu_acc_index with no override in force. */
  function Slot(mi: nat, ni: nat, m: nat, w4wide: bool): int {
    if m < 2 then ni
    else Quad(mi, ni / 32, ni % 32 / 16, ni % 32 % 16 / 4, m, w4wide) + ni % 32 % 16 % 4
  }

  /** Where the quad of channels of row mi starts: group G, block a, quad t of the block. */
  function Quad(mi: nat, G: nat, a: nat, t: nat, m: nat, w4wide: bool): int
    requires m >= 2
  {
    var P := m / 2;
    if w4wide then G * (m * 32) + a * (32 * P) + (t * (8 * P) + (mi / 2) * 8 + (mi % 2) * 4)
    else G * (m * 32) + (mi / P) * (32 * P) + (t * (8 * P) + (mi % P) * 8 + a * 4)
  }

  /** charsiu_acc_width_ok. */
  predicate WidthOk(m: nat) { m % 2 == 0 }

  ghost predicate InRange(mi: int, ni: int, m: nat, n: nat) { 0 <= mi < m && 0 <= ni < n }

  ghost predicate Collide(r: int, c: int, r': int, c': int, m: nat, n: nat, w4wide: bool)
    requires m >= 1
  {
    InRange(r, c, m, n) && InRange(r', c', m, n) && Slot(r, c, m, w4wide) == Slot(r', c', m, w4wide)
  }

  ghost predicate Injective(m: nat, n: nat, w4wide: bool)
    requires m >= 1
  {
    forall r, c, r', c' :: Collide(r, c, r', c', m, n, w4wide) ==> r == r' && c == c'
  }

  ghost predicate Fits(m: nat, n: nat, w4wide: bool)
    requires m >= 1
  {
    forall r, c :: InRange(r, c, m, n) ==> 0 <= Slot(r, c, m, w4wide) < m * n
  }

  ghost predicate Onto(m: nat, n: nat, w4wide: bool)
    requires m >= 1
  {
    forall k: nat :: k < m * n ==> Hit(k, m, n, w4wide)
  }

  ghost predicate Hit(k: nat, m: nat, n: nat, w4wide: bool)
    requires m >= 1
  {
    exists r, c :: InRange(r, c, m, n) && Slot(r, c, m, w4wide) == k
  }

  /** Every row and channel has a slot of its own in [0, m * n), and no slot is spare. */
  ghost predicate Bijective(m: nat, n: nat, w4wide: bool)
    requires m >= 1
  {
    Injective(m, n, w4wide) && Fits(m, n, w4wide) && Onto(m, n, w4wide)
  }

  // ---- the digits of a slot ----

  /** (group, block, quad, pair, half, lane), of radices (any, 2, 4, P, 2, 4). */
  datatype Digits = Digits(g: nat, b: nat, q: nat, p: nat, h: nat, l: nat)

  predicate DigitsOk(d: Digits, P: nat) { d.b < 2 && d.q < 4 && d.p < P && d.h < 2 && d.l < 4 }

  function Number(d: Digits, P: nat): int {
    d.g * (64 * P) + d.b * (32 * P) + (d.q * (8 * P) + d.p * 8 + d.h * 4 + d.l)
  }

  lemma Tail(d: Digits, P: nat) returns (r: nat, s: nat, u: nat)
    requires DigitsOk(d, P)
    ensures u == d.p * 8 + d.h * 4 + d.l && u < 8 * P
    ensures s == d.q * (8 * P) + u && s < 32 * P
    ensures r == d.b * (32 * P) + s && r < 64 * P
    ensures Number(d, P) == d.g * (64 * P) + r
  {
    u := d.p * 8 + d.h * 4 + d.l;
    MulMono(8 * P, d.q, 4);
    s := d.q * (8 * P) + u;
    MulMono(32 * P, d.b, 2);
    r := d.b * (32 * P) + s;
  }

  lemma NumberUnique(d: Digits, e: Digits, P: nat)
    requires DigitsOk(d, P) && DigitsOk(e, P) && Number(d, P) == Number(e, P)
    ensures d == e
  {
    var r, s, u := Tail(d, P);
    var r', s', u' := Tail(e, P);
    SplitUnique(64 * P, d.g, r, e.g, r');
    SplitUnique(32 * P, d.b, s, e.b, s');
    SplitUnique(8 * P, d.q, u, e.q, u');
  }

  lemma DigitsOf(k: nat, P: nat) returns (d: Digits)
    requires P > 0
    ensures DigitsOk(d, P) && Number(d, P) == k
  {
    var g, r := Split(64 * P, k);
    var b, s := Split(32 * P, r);
    if b >= 2 { MulMono(32 * P, 1, b); }
    var q, u := Split(8 * P, s);
    if q >= 4 { MulMono(8 * P, 3, q); }
    d := Digits(g, b, q, u / 8, u % 8 / 4, u % 4);
  }

  // ---- rows and channels as digits ----

  /** The row is (half, pair) in the default order and (pair, half) in the wide one; the
      channel's second digit takes the other place. */
  function CellRow(d: Digits, P: nat, w4wide: bool): int {
    if w4wide then d.p * 2 + d.h else d.b * P + d.p
  }

  function CellChannel(d: Digits, w4wide: bool): int {
    d.g * 32 + (if w4wide then d.b else d.h) * 16 + d.q * 4 + d.l
  }

  lemma CellDigits(mi: nat, ni: nat, P: nat, w4wide: bool) returns (d: Digits)
    requires P > 0 && mi < 2 * P
    ensures DigitsOk(d, P) && Slot(mi, ni, 2 * P, w4wide) == Number(d, P)
    ensures CellRow(d, P, w4wide) == mi && CellChannel(d, w4wide) == ni
  {
    var G, a, t := ni / 32, ni % 32 / 16, ni % 32 % 16;
    assert (2 * P) * 32 == 64 * P;
    if w4wide {
      d := Digits(G, a, t / 4, mi / 2, mi % 2, t % 4);
    } else {
      var b := if mi < P then 0 else 1;
      var p := mi - b * P;
      DivMod(P, b, p);
      d := Digits(G, b, t / 4, p, a, t % 4);
    }
  }

  lemma DigitsAreCell(d: Digits, P: nat, w4wide: bool)
    requires DigitsOk(d, P)
    ensures 0 <= CellRow(d, P, w4wide) < 2 * P && 0 <= CellChannel(d, w4wide)
    ensures Slot(CellRow(d, P, w4wide), CellChannel(d, w4wide), 2 * P, w4wide) == Number(d, P)
  {
    hide Slot, Number;
    BlockRow(d.b, d.p, P);
    var r, c := CellRow(d, P, w4wide), CellChannel(d, w4wide);
    var e := CellDigits(r, c, P, w4wide);
    ChannelDigits(d.g, if w4wide then d.b else d.h, d.q, d.l);
    ChannelDigits(e.g, if w4wide then e.b else e.h, e.q, e.l);
    if !w4wide {
      SplitUnique(P, d.b, d.p, e.b, e.p);
    }
    assert d == e;
  }

  lemma BlockRow(b: nat, p: nat, P: nat)
    requires b < 2 && p < P
    ensures 0 <= b * P + p < 2 * P
  {
  }

  /** Both read orders are bijections at every even width and every whole number of
      channel groups. */
  lemma EvenIsBijective(m: nat, n: nat, w4wide: bool)
    requires m >= 2 && WidthOk(m) && n % 32 == 0
    ensures Bijective(m, n, w4wide)
  {
    var P := m / 2;
    assert m == 2 * P;
    forall r, c, r', c' | Collide(r, c, r', c', m, n, w4wide) ensures r == r' && c == c' {
      var d := CellDigits(r, c, P, w4wide);
      var e := CellDigits(r', c', P, w4wide);
      NumberUnique(d, e, P);
    }
    forall r, c | InRange(r, c, m, n) ensures 0 <= Slot(r, c, m, w4wide) < m * n {
      var d := CellDigits(r, c, P, w4wide);
      GroupBelow(d, P, n);
    }
    forall k: nat | k < m * n ensures Hit(k, m, n, w4wide) {
      var d := DigitsOf(k, P);
      DigitsAreCell(d, P, w4wide);
      GroupBelow(d, P, n);
      assert InRange(CellRow(d, P, w4wide), CellChannel(d, w4wide), m, n);
    }
  }

  lemma GroupBelow(d: Digits, P: nat, n: nat)
    requires n % 32 == 0 && DigitsOk(d, P)
    ensures 0 <= Number(d, P)
    ensures Number(d, P) < 2 * P * n <==> d.g < n / 32
    ensures forall w4wide :: CellChannel(d, w4wide) < n <==> d.g < n / 32
  {
    var r, s, u := Tail(d, P);
    var N := n / 32;
    assert n == 32 * N;
    assert 2 * P * n == N * (64 * P) by { assert 2 * P * (32 * N) == N * (64 * P); }
    if d.g < N { MulMono(64 * P, d.g, N); }
    if N < d.g { MulMono(64 * P, N, d.g); }
  }

  // ---- one step at a time: what each order makes of the next row and the next channels ----

  /** Below two rows the surface is flat. */
  lemma Flat(mi: nat, ni: nat, m: nat, w4wide: bool)
    requires m < 2
    ensures Slot(mi, ni, m, w4wide) == ni
  {
  }

  /** In both orders the next quad of a block is a row of quads on, and the next group of 32
      channels a surface of 32 channels on. */
  lemma NextChannels(mi: nat, ni: nat, m: nat, w4wide: bool)
    requires m >= 2
    ensures Slot(0, 0, m, w4wide) == 0
    ensures ni % 16 < 12 ==> Slot(mi, ni + 4, m, w4wide) == Slot(mi, ni, m, w4wide) + 8 * (m / 2)
    ensures Slot(mi, ni + 32, m, w4wide) == Slot(mi, ni, m, w4wide) + 32 * m
  {
    var G, a, t, l := ChannelParts(ni);
    var P := m / 2;
    ChannelDigits(G + 1, a, t, l);
    if ni % 16 < 12 {
      ChannelDigits(G, a, t + 1, l);
      assert (t + 1) * (8 * P) == t * (8 * P) + 8 * P;
    }
    assert (G + 1) * (m * 32) == G * (m * 32) + m * 32;
    assert 0 / P == 0 && 0 % P == 0;
  }

  /** In the wide order the rows go in pairs, four slots apart, the pairs eight, and the second
      block of sixteen channels is half a surface on. */
  lemma WideSteps(mi: nat, ni: nat, m: nat)
    requires m >= 2
    ensures mi % 2 == 0 ==> Slot(mi + 1, ni, m, true) == Slot(mi, ni, m, true) + 4
    ensures Slot(mi + 2, ni, m, true) == Slot(mi, ni, m, true) + 8
    ensures ni % 32 < 16 ==> Slot(mi, ni + 16, m, true) == Slot(mi, ni, m, true) + 32 * (m / 2)
  {
    var G, a, t, l := ChannelParts(ni);
    if a == 0 { ChannelDigits(G, 1, t, l); }
  }

  /** In the default order the rows of a half are eight slots apart, the halves half a surface,
      and the second block of sixteen channels is the other four of each eight. */
  lemma DefaultSteps(mi: nat, ni: nat, m: nat)
    requires m >= 2
    ensures (mi + 1) % (m / 2) != 0 ==> Slot(mi + 1, ni, m, false) == Slot(mi, ni, m, false) + 8
    ensures Slot(mi + m / 2, ni, m, false) == Slot(mi, ni, m, false) + 32 * (m / 2)
    ensures ni % 32 < 16 ==> Slot(mi, ni + 16, m, false) == Slot(mi, ni, m, false) + 4
  {
    hide Slot;
    var G, a, t, l := ChannelParts(ni);
    var P := m / 2;
    var b, p := Split(P, mi);
    RowIs(mi, G, a, t, l, m, b, p);
    NextHalf(b, P);
    RowIs(mi + P, G, a, t, l, m, b + 1, p);
    DivMod(P, b, p);
    if p + 1 < P {
      RowIs(mi + 1, G, a, t, l, m, b, p + 1);
    } else {
      DivMod(P, b + 1, 0);
    }
    if a == 0 { RowIs(mi, G, 1, t, l, m, b, p); }
  }

  lemma NextHalf(b: nat, P: nat)
    ensures (b + 1) * P == b * P + P && (b + 1) * (32 * P) == b * (32 * P) + 32 * P
  {
  }

  /** A slot of the default order, from the row's half and its place in it. */
  lemma RowIs(mi: nat, G: nat, a: nat, t: nat, l: nat, m: nat, b: nat, p: nat)
    requires m >= 2 && a < 2 && t < 4 && l < 4 && p < m / 2 && mi == b * (m / 2) + p
    ensures Slot(mi, G * 32 + a * 16 + t * 4 + l, m, false) ==
            G * (m * 32) + b * (32 * (m / 2)) + (t * (8 * (m / 2)) + p * 8 + a * 4) + l
  {
    ChannelDigits(G, a, t, l);
    DivMod(m / 2, b, p);
  }

  lemma ChannelParts(ni: nat) returns (G: nat, a: nat, t: nat, l: nat)
    ensures a < 2 && t < 4 && l < 4 && ni == G * 32 + a * 16 + t * 4 + l
    ensures ni / 32 == G && ni % 32 / 16 == a && ni % 32 % 16 / 4 == t && ni % 32 % 16 % 4 == l
    ensures ni % 16 == t * 4 + l && ni % 32 == a * 16 + t * 4 + l
  {
    var x, y;
    G, x := Split(32, ni);
    a, y := Split(16, x);
    t, l := Split(4, y);
    DivMod(32, G, x);
    DivMod(16, a, y);
    DivMod(4, t, l);
    DivMod(16, 2 * G + a, y);
  }

  /** An aligned quad of channels is four consecutive slots, at every width. */
  lemma QuadsAreConsecutive(mi: nat, ni: nat, q: nat, m: nat, w4wide: bool)
    requires ni % 4 == 0 && q < 4
    ensures Slot(mi, ni + q, m, w4wide) == Slot(mi, ni, m, w4wide) + q
  {
    hide Quad;
    LaneDigits(ni, q);
  }

  lemma LaneDigits(ni: nat, q: nat)
    requires ni % 4 == 0 && q < 4
    ensures (ni + q) / 32 == ni / 32 && (ni + q) % 32 / 16 == ni % 32 / 16
    ensures (ni + q) % 32 % 16 / 4 == ni % 32 % 16 / 4 && (ni + q) % 32 % 16 % 4 == q && ni % 32 % 16 % 4 == 0
  {
    var G, x := Split(32, ni);
    var a, y := Split(16, x);
    var t, l := Split(4, y);
    DivMod(32, G, x);
    DivMod(16, a, y);
    DivMod(4, t, l);
    assert l == 0;
    DivMod(32, G, x + q);
    DivMod(16, a, y + q);
    DivMod(4, t, q);
  }

  /** At an odd width the last row, channel 0, lands on row 0, channel 4. */
  lemma OddWideCollides(m: nat)
    requires m >= 3 && !WidthOk(m)
    ensures Slot(m - 1, 0, m, true) == Slot(0, 4, m, true)
  {
  }

  /** The width predicate is exactly right for the wide read order. */
  lemma WideExact(m: nat, n: nat)
    requires m >= 2 && n > 0 && n % 32 == 0
    ensures Bijective(m, n, true) <==> WidthOk(m)
  {
    if WidthOk(m) {
      EvenIsBijective(m, n, true);
    } else {
      OddWideCollides(m);
      assert Collide(m - 1, 0, 0, 4, m, n, true);
    }
  }

  /** The default order tolerates one odd width more than the predicate admits: three. */
  lemma DefaultExact(m: nat, n: nat)
    requires m >= 2 && n > 0 && n % 32 == 0
    ensures Bijective(m, n, false) <==> WidthOk(m) || m == 3
  {
    if WidthOk(m) {
      EvenIsBijective(m, n, false);
    } else if m == 3 {
      ThreeIsBijective(n);
    } else {
      OddDefaultOverruns(m, n);
      assert InRange(m - 1, n - 20, m, n);
    }
  }

  lemma OddDefaultOverruns(m: nat, n: nat)
    requires m >= 5 && !WidthOk(m) && n > 0 && n % 32 == 0
    ensures Slot(m - 1, n - 20, m, false) >= m * n
  {
    var P, G := m / 2, n / 32 - 1;
    assert n - 20 == 32 * G + 12;
    DivMod(P, 2, 0);
    assert (n - 20) / 32 == G && (n - 20) % 32 == 12;
    assert m * n == G * (m * 32) + m * 32 by { assert m * (32 * G + 32) == G * (m * 32) + m * 32; }
  }

  // ---- three rows: group, row, then a permutation of 0..31 ----

  predicate ThreeOk(d: Digits) { d.b < 3 && d.q < 4 && d.p == 0 && d.h < 2 && d.l < 4 }

  function ThreeNumber(d: Digits): nat { 96 * d.g + 32 * d.b + 8 * d.q + 4 * d.h + d.l }

  lemma ThreeUnique(d: Digits, e: Digits)
    requires ThreeOk(d) && ThreeOk(e) && ThreeNumber(d) == ThreeNumber(e)
    ensures d == e
  {
    SplitUnique(96, d.g, 32 * d.b + 8 * d.q + 4 * d.h + d.l, e.g, 32 * e.b + 8 * e.q + 4 * e.h + e.l);
    SplitUnique(32, d.b, 8 * d.q + 4 * d.h + d.l, e.b, 8 * e.q + 4 * e.h + e.l);
    SplitUnique(8, d.q, 4 * d.h + d.l, e.q, 4 * e.h + e.l);
  }

  lemma ThreeDigitsOf(k: nat) returns (d: Digits)
    ensures ThreeOk(d) && ThreeNumber(d) == k
  {
    var g, x := Split(96, k);
    var b, y := Split(32, x);
    var q, z := Split(8, y);
    var h, l := Split(4, z);
    d := Digits(g, b, q, 0, h, l);
  }

  lemma ThreeSlot(r: nat, d: Digits)
    requires r < 3 && ThreeOk(d) && d.b == r
    ensures Slot(r, CellChannel(d, false), 3, false) == ThreeNumber(d)
  {
    ChannelDigits(d.g, d.h, d.q, d.l);
    assert r / 1 == r && r % 1 == 0;
  }

  lemma ChannelDigits(g: nat, h: nat, q: nat, l: nat)
    requires h < 2 && q < 4 && l < 4
    ensures var c := g * 32 + h * 16 + q * 4 + l;
            c / 32 == g && c % 32 / 16 == h && c % 32 % 16 / 4 == q && c % 32 % 16 % 4 == l
  {
    DivMod(32, g, h * 16 + q * 4 + l);
    DivMod(16, h, q * 4 + l);
    DivMod(4, q, l);
  }

  lemma ThreeCell(r: nat, c: nat) returns (d: Digits)
    requires r < 3
    ensures ThreeOk(d) && d.b == r && CellChannel(d, false) == c
    ensures Slot(r, c, 3, false) == ThreeNumber(d)
  {
    var G, x := Split(32, c);
    var a, y := Split(16, x);
    var q, l := Split(4, y);
    d := Digits(G, r, q, 0, a, l);
    ThreeSlot(r, d);
  }

  lemma ThreeIsBijective(n: nat)
    requires n % 32 == 0
    ensures Bijective(3, n, false)
  {
    forall r, c, r', c' | Collide(r, c, r', c', 3, n, false) ensures r == r' && c == c' {
      var d := ThreeCell(r, c);
      var e := ThreeCell(r', c');
      ThreeUnique(d, e);
    }
    forall r, c | InRange(r, c, 3, n) ensures 0 <= Slot(r, c, 3, false) < 3 * n {
      var d := ThreeCell(r, c);
      ThreeBelow(d, n);
    }
    forall k: nat | k < 3 * n ensures Hit(k, 3, n, false) {
      var d := ThreeDigitsOf(k);
      ThreeBelow(d, n);
      ThreeSlot(d.b, d);
      assert InRange(d.b, CellChannel(d, false), 3, n);
    }
  }

  lemma ThreeBelow(d: Digits, n: nat)
    requires ThreeOk(d) && n % 32 == 0
    ensures ThreeNumber(d) < 3 * n <==> CellChannel(d, false) < n
  {
    var N := n / 32;
    assert n == 32 * N;
  }
}
