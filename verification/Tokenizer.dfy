/**
 The CLIP tokenizer: bytes to printable pieces, byte pair merges by vocabulary index,
 and the split of a text into words.
 */
module Tokenizer {
  import opened IndexArith
  import opened Vocabulary

  const MAXSYM := 264   // symbols a word can start as, and one more
  const SYMLEN := 72    // a symbol's buffer, with its terminator
  const MARKER: Str := [60, 47, 119, 62]   // "</w>"

  // ---- the byte encoder ----

  predicate Printable(b: int) { 33 <= b <= 126 || 161 <= b <= 172 || b >= 174 }

  /** How many bytes below b do not stand for themselves. */
  function Skipped(b: nat): (n: nat)
    ensures n <= b
  {
    if b == 0 then 0 else Skipped(b - 1) + if Printable(b - 1) then 0 else 1
  }

  function CodePoint(b: Byte): (cp: nat)
    ensures cp < 0x800
  {
    if Printable(b) then b else 256 + Skipped(b)
  }

  function Utf8(cp: nat): Str
    requires cp < 0x800
  {
    if cp < 0x80 then [cp] else [0xC0 + cp / 64, 0x80 + cp % 64]
  }

  function Piece(b: Byte): (p: Str)
    ensures 1 <= |p| <= 2
  {
    Utf8(CodePoint(b))
  }

  method ByteToPiece(b: Byte) returns (out: Str)
    ensures out == Piece(b)
  {
    var cp: nat := b;
    if !Printable(b) {
      var n := 0;
      for i := 0 to b
        invariant n == Skipped(i)
      {
        if !Printable(i) { n := n + 1; }
      }
      cp := 256 + n;
    }
    out := if cp < 0x80 then [cp] else [0xC0 + cp / 64, 0x80 + cp % 64];
  }

  lemma {:induction false} SkippedGrows(a: nat, b: nat)
    requires a < b && !Printable(a)
    ensures Skipped(a) < Skipped(b)
  {
    if a < b - 1 { SkippedGrows(a, b - 1); }
  }

  lemma CodePointInjective(a: Byte, b: Byte)
    requires CodePoint(a) == CodePoint(b)
    ensures a == b
  {
    if a < b && !Printable(a) { SkippedGrows(a, b); }
    if b < a && !Printable(b) { SkippedGrows(b, a); }
  }

  /** The bytes that stand for themselves, and the code points from 256 on of the 68 others, in
      order: the controls and the space, 127 to 160, and 173. */
  lemma CodePointIs(b: Byte)
    ensures 33 <= b <= 126 || 161 <= b <= 172 || b >= 174 ==> CodePoint(b) == b
    ensures b <= 32 ==> CodePoint(b) == 256 + b
    ensures 127 <= b <= 160 ==> CodePoint(b) == 256 + 33 + (b - 127)
    ensures b == 173 ==> CodePoint(b) == 256 + 67
  {
    if b <= 173 { SkippedIs(b); }
  }

  lemma {:induction false} SkippedIs(b: nat)
    requires b <= 173
    ensures Skipped(b) == if b <= 33 then b else if b <= 127 then 33 else if b <= 161 then b - 94 else 67
  {
    if b > 0 { SkippedIs(b - 1); }
  }

  /** No piece is a proper prefix of another, and each names one byte. */
  lemma PiecePrefixFree(a: Byte, b: Byte, x: Str, y: Str)
    requires Piece(a) + x == Piece(b) + y
    ensures a == b && x == y
  {
    var p, q := CodePoint(a), CodePoint(b);
    assert (Piece(a) + x)[0] == Piece(a)[0] && (Piece(b) + y)[0] == Piece(b)[0];
    assert p < 0x80 <==> q < 0x80;
    if p >= 0x80 {
      assert (Piece(a) + x)[1] == Piece(a)[1] && (Piece(b) + y)[1] == Piece(b)[1];
    }
    assert p == q;
    CodePointInjective(a, b);
    assert x == (Piece(a) + x)[|Piece(a)|..] == y;
  }

  // ---- symbols ----

  function Concat(syms: seq<Str>): Str {
    if syms == [] then [] else syms[0] + Concat(syms[1..])
  }

  lemma Assoc(x: Str, y: Str, z: Str)
    ensures x + (y + z) == x + y + z
  {
  }

  lemma {:induction false} ConcatAppend(a: seq<Str>, b: seq<Str>)
    ensures Concat(a + b) == Concat(a) + Concat(b)
  {
    if a == [] {
      assert a + b == b;
    } else {
      ConcatAppend(a[1..], b);
      assert (a + b)[0] == a[0] && (a + b)[1..] == a[1..] + b;
      Assoc(a[0], Concat(a[1..]), Concat(b));
    }
  }

  function Pieces(w: Str): (r: seq<Str>)
    ensures |r| == |w|
  {
    seq(|w|, i requires 0 <= i < |w| => Piece(w[i]))
  }

  /** The pieces of a word, the last one marked as the end of it. */
  function Marked(w: Str): seq<Str> {
    if w == [] then []
    else if |w| == 1 then [Piece(w[0]) + MARKER]
    else [Piece(w[0])] + Marked(w[1..])
  }

  /** What a word starts as: as many of its bytes as there are symbols for. */
  function Symbols(w: Str): seq<Str> {
    Marked(if |w| < MAXSYM then w else w[..MAXSYM - 1])
  }

  lemma {:induction false} MarkedIsPieces(w: Str)
    requires w != []
    ensures Marked(w) == Pieces(w)[..|w| - 1] + [Piece(w[|w| - 1]) + MARKER]
  {
    if |w| > 1 {
      MarkedIsPieces(w[1..]);
      assert Pieces(w)[..|w| - 1] == [Piece(w[0])] + Pieces(w[1..])[..|w| - 2];
    }
  }

  lemma {:induction false} MarkedFrom(w: Str, syms: seq<Str>)
    requires |syms| == |w| > 0 && syms[|w| - 1] == Piece(w[|w| - 1]) + MARKER
    requires forall i :: 0 <= i < |w| - 1 ==> syms[i] == Piece(w[i])
    ensures syms == Marked(w)
  {
    if |w| > 1 {
      MarkedFrom(w[1..], syms[1..]);
      assert syms == [syms[0]] + syms[1..];
    }
  }

  /** A word starts as the pieces of its bytes, of the first 263 if it is longer, "</w>" after
      the last of them. */
  lemma SymbolsAre(w: Str, n: nat)
    requires w != [] && n == Min(|w|, 263)
    ensures |Symbols(w)| == n
    ensures forall i :: 0 <= i < n ==> Symbols(w)[i] == if i + 1 < n then Piece(w[i]) else Piece(w[i]) + [60, 47, 119, 62]
  {
    var v := if |w| < MAXSYM then w else w[..MAXSYM - 1];
    assert |v| == n;
    MarkedIsPieces(v);
  }

  lemma SymbolsSpell(w: Str)
    requires 0 < |w| < MAXSYM
    ensures Concat(Symbols(w)) == Concat(Pieces(w)) + MARKER
  {
    var k := |w| - 1;
    var front, last := Pieces(w)[..k], Piece(w[k]);
    MarkedIsPieces(w);
    assert Pieces(w) == front + [last];
    ConcatAppend(front, [last]);
    ConcatAppend(front, [last + MARKER]);
    ConcatOne(last);
    ConcatOne(last + MARKER);
    assert Concat(front) + last + MARKER == Concat(front) + (last + MARKER);
  }

  lemma ConcatOne(x: Str)
    ensures Concat([x]) == x
  {
    assert Concat([x]) == x + Concat([x][1..]);
  }

  lemma {:induction false} SpellingInjective(v: Str, w: Str)
    requires Concat(Pieces(v)) == Concat(Pieces(w))
    ensures v == w
    decreases |v|
  {
    if v != [] {
      assert Pieces(v)[1..] == Pieces(v[1..]);
    }
    if w != [] {
      assert Pieces(w)[1..] == Pieces(w[1..]);
    }
    if v != [] && w != [] {
      PiecePrefixFree(v[0], w[0], Concat(Pieces(v[1..])), Concat(Pieces(w[1..])));
      SpellingInjective(v[1..], w[1..]);
    }
  }

  // ---- merging ----

  /** The vocabulary index of the pair at i, or -1 if it is not an entry or will not fit. */
  function PairId(vocab: seq<Str>, syms: seq<Str>, i: nat): int
    requires i + 1 < |syms|
  {
    if |syms[i]| + |syms[i + 1]| >= SYMLEN then -1 else IndexOf(vocab, syms[i] + syms[i + 1])
  }

  /** b is the leftmost of the pairs with the lowest index; -1 if no pair has one. */
  ghost predicate IsBest(vocab: seq<Str>, syms: seq<Str>, b: int) {
    if b < 0 then b == -1 && forall i :: 0 <= i < |syms| - 1 ==> PairId(vocab, syms, i) < 0
    else
      && b + 1 < |syms| && PairId(vocab, syms, b) >= 0
      && forall i :: 0 <= i < |syms| - 1 && PairId(vocab, syms, i) >= 0 ==>
           PairId(vocab, syms, b) < PairId(vocab, syms, i)
           || (PairId(vocab, syms, b) == PairId(vocab, syms, i) && b <= i)
  }

  function BestOf(vocab: seq<Str>, syms: seq<Str>, k: nat): (b: int)
    requires k == 0 || k < |syms|
    ensures -1 <= b < k
    ensures b >= 0 ==> PairId(vocab, syms, b) >= 0
  {
    if k == 0 then -1
    else
      var b := BestOf(vocab, syms, k - 1);
      var id := PairId(vocab, syms, k - 1);
      if id >= 0 && (b < 0 || id < PairId(vocab, syms, b)) then k - 1 else b
  }

  lemma {:induction false} BestOfIsBest(vocab: seq<Str>, syms: seq<Str>, k: nat)
    requires k == 0 || k < |syms|
    ensures var b := BestOf(vocab, syms, k);
            forall i :: 0 <= i < k && PairId(vocab, syms, i) >= 0 ==>
              b >= 0 && (PairId(vocab, syms, b) < PairId(vocab, syms, i)
                         || (PairId(vocab, syms, b) == PairId(vocab, syms, i) && b <= i))
  {
    if k > 0 { BestOfIsBest(vocab, syms, k - 1); }
  }

  function Best(vocab: seq<Str>, syms: seq<Str>): (b: int)
    ensures -1 <= b && (b >= 0 ==> b + 1 < |syms| && PairId(vocab, syms, b) >= 0)
  {
    BestOf(vocab, syms, if |syms| < 2 then 0 else |syms| - 1)
  }

  /** The scan finds the leftmost pair of lowest index, and there is only one. */
  lemma BestIsBest(vocab: seq<Str>, syms: seq<Str>, b: int)
    ensures IsBest(vocab, syms, b) <==> b == Best(vocab, syms)
  {
    BestOfIsBest(vocab, syms, if |syms| < 2 then 0 else |syms| - 1);
  }

  function Merge(syms: seq<Str>, i: nat): seq<Str>
    requires i + 1 < |syms|
  {
    syms[..i] + [syms[i] + syms[i + 1]] + syms[i + 2..]
  }

  /** Repeatedly merge the best pair. */
  function Bpe(vocab: seq<Str>, syms: seq<Str>): seq<Str>
    decreases |syms|
  {
    var b := Best(vocab, syms);
    if b < 0 then syms else Bpe(vocab, Merge(syms, b))
  }

  lemma {:induction false} MergeKeepsText(syms: seq<Str>, i: nat)
    requires i + 1 < |syms|
    ensures Concat(Merge(syms, i)) == Concat(syms)
    decreases i
  {
    var m := Merge(syms, i);
    if i == 0 {
      assert m[0] == syms[0] + syms[1] && m[1..] == syms[2..] && syms[1..][1..] == syms[2..];
      Assoc(syms[0], syms[1], Concat(syms[2..]));
    } else {
      assert m[0] == syms[0] && m[1..] == Merge(syms[1..], i - 1);
      MergeKeepsText(syms[1..], i - 1);
    }
  }

  /** Merging never changes what the symbols spell. */
  lemma {:induction false} BpeKeepsText(vocab: seq<Str>, syms: seq<Str>)
    ensures Concat(Bpe(vocab, syms)) == Concat(syms)
    decreases |syms|
  {
    var b := Best(vocab, syms);
    if b >= 0 {
      MergeKeepsText(syms, b);
      BpeKeepsText(vocab, Merge(syms, b));
    }
  }

  /** It stops only when no adjacent pair is an entry that fits. */
  lemma {:induction false} BpeIsNormal(vocab: seq<Str>, syms: seq<Str>)
    ensures forall i :: 0 <= i < |Bpe(vocab, syms)| - 1 ==> PairId(vocab, Bpe(vocab, syms), i) < 0
    decreases |syms|
  {
    var b := Best(vocab, syms);
    BestIsBest(vocab, syms, b);
    if b >= 0 { BpeIsNormal(vocab, Merge(syms, b)); }
  }

  /** No two neighbours are left that make an entry of fewer than 72 bytes. */
  lemma NoneLeft(vocab: seq<Str>, syms: seq<Str>, i: nat)
    requires i + 1 < |Bpe(vocab, syms)|
    ensures var x, y := Bpe(vocab, syms)[i], Bpe(vocab, syms)[i + 1]; |x| + |y| < 72 ==> x + y !in vocab
  {
    BpeIsNormal(vocab, syms);
    var x, y := Bpe(vocab, syms)[i], Bpe(vocab, syms)[i + 1];
    assert PairId(vocab, Bpe(vocab, syms), i) < 0;
    IndexOfIsLeast(vocab, x + y, IndexOf(vocab, x + y));
  }

  /** The next merge is of the entry that comes first in the vocabulary among those of fewer
      than 72 bytes that two neighbours make. */
  lemma MergesFirst(vocab: seq<Str>, syms: seq<Str>, i: nat)
    requires i + 1 < |syms| && |syms[i]| + |syms[i + 1]| < 72 && syms[i] + syms[i + 1] in vocab
    ensures var b := Best(vocab, syms);
            && b >= 0 && |syms[b]| + |syms[b + 1]| < 72 && syms[b] + syms[b + 1] in vocab
            && IndexOf(vocab, syms[b] + syms[b + 1]) <= IndexOf(vocab, syms[i] + syms[i + 1])
            && Bpe(vocab, syms) == Bpe(vocab, syms[..b] + [syms[b] + syms[b + 1]] + syms[b + 2..])
  {
    var b := Best(vocab, syms);
    BestIsBest(vocab, syms, b);
    IndexOfIsLeast(vocab, syms[i] + syms[i + 1], IndexOf(vocab, syms[i] + syms[i + 1]));
    assert PairId(vocab, syms, i) >= 0;
  }

  predicate AllKnown(vocab: seq<Str>, syms: seq<Str>) {
    forall i :: 0 <= i < |syms| ==> IndexOf(vocab, syms[i]) >= 0
  }

  predicate AllFit(syms: seq<Str>) {
    forall i :: 0 <= i < |syms| ==> |syms[i]| < SYMLEN
  }

  /** From known symbols merging makes only known symbols. */
  lemma {:induction false} BpeKeepsKnown(vocab: seq<Str>, syms: seq<Str>)
    requires AllKnown(vocab, syms)
    ensures AllKnown(vocab, Bpe(vocab, syms))
    decreases |syms|
  {
    var b := Best(vocab, syms);
    if b >= 0 { BpeKeepsKnown(vocab, Merge(syms, b)); }
  }

  /** The ids that come out: symbols that are not entries are dropped. */
  function Ids(vocab: seq<Str>, syms: seq<Str>): seq<int> {
    if syms == [] then []
    else
      var id := IndexOf(vocab, syms[0]);
      (if id >= 0 then [id] else []) + Ids(vocab, syms[1..])
  }

  function WordIds(vocab: seq<Str>, w: Str): seq<int> { Ids(vocab, Bpe(vocab, Symbols(w))) }

  /** What a list of ids spells. */
  function Spell(vocab: seq<Str>, ids: seq<int>): Str {
    if ids == [] then []
    else (if 0 <= ids[0] < |vocab| then vocab[ids[0]] else []) + Spell(vocab, ids[1..])
  }

  lemma {:induction false} SpellIds(vocab: seq<Str>, syms: seq<Str>)
    requires AllKnown(vocab, syms)
    ensures Spell(vocab, Ids(vocab, syms)) == Concat(syms)
  {
    if syms != [] {
      assert IndexOf(vocab, syms[0]) >= 0;
      SpellIds(vocab, syms[1..]);
      assert Ids(vocab, syms)[1..] == Ids(vocab, syms[1..]);
    }
  }

  /** When every base piece of the word is an entry, the ids spell the word and its
      marker back. */
  lemma WordRoundTrip(vocab: seq<Str>, w: Str)
    requires 0 < |w| < MAXSYM && AllKnown(vocab, Symbols(w))
    ensures Spell(vocab, WordIds(vocab, w)) == Concat(Pieces(w)) + MARKER
  {
    BpeKeepsKnown(vocab, Symbols(w));
    BpeKeepsText(vocab, Symbols(w));
    SpellIds(vocab, Bpe(vocab, Symbols(w)));
    SymbolsSpell(w);
  }

  /** So two such words never share their ids. */
  lemma WordIdsInjective(vocab: seq<Str>, v: Str, w: Str)
    requires 0 < |v| < MAXSYM && AllKnown(vocab, Symbols(v))
    requires 0 < |w| < MAXSYM && AllKnown(vocab, Symbols(w))
    requires WordIds(vocab, v) == WordIds(vocab, w)
    ensures v == w
  {
    WordRoundTrip(vocab, v);
    WordRoundTrip(vocab, w);
    var x, y := Concat(Pieces(v)), Concat(Pieces(w));
    assert x == (x + MARKER)[..|x + MARKER| - 4] == (y + MARKER)[..|y + MARKER| - 4] == y;
    SpellingInjective(v, w);
  }

  // ---- bpe_word, in its buffers ----

  /** The fixed array of symbol buffers a word is merged in. */
  class Word {
    const sym: array<Str>
    var n: nat

    constructor ()
      ensures sym.Length == MAXSYM && fresh(sym) && n == 0
    {
      sym := new Str[MAXSYM](_ => []);
      n := 0;
    }

    ghost predicate Valid()
      reads this, sym
    {
      n <= sym.Length == MAXSYM && AllFit(sym[..n])
    }

    method Load(w: Str)
      requires Valid()
      modifies this, sym
      ensures Valid() && sym[..n] == Symbols(w)
    {
      hide Piece;
      n := 0;
      while n < |w| && n < MAXSYM - 1
        invariant n <= |w| && n <= MAXSYM - 1
        invariant forall j :: 0 <= j < n ==> sym[j] == Piece(w[j])
      {
        sym[n] := ByteToPiece(w[n]);
        n := n + 1;
      }
      ghost var u := if |w| < MAXSYM then w else w[..MAXSYM - 1];
      assert |u| == n && forall j :: 0 <= j < n ==> u[j] == w[j];
      if n != 0 {
        sym[n - 1] := sym[n - 1] + MARKER;
        MarkedFrom(u, sym[..n]);
      }
    }

    /** One round: the best pair, and nothing if there is none. */
    method FindBest(t: Table) returns (best: int)
      requires Valid() && t.Valid()
      ensures best == Best(t.vocab, sym[..n])
    {
      best := -1;
      var bestId := 0;
      var i := 0;
      ghost var syms := sym[..n];
      while i + 1 < n
        invariant i == 0 || 0 <= i < n
        invariant best == BestOf(t.vocab, syms, i)
        invariant best >= 0 ==> bestId == PairId(t.vocab, syms, best)
      {
        var id := PairLookup(t, i);
        if id >= 0 && (best < 0 || id < bestId) {
          best, bestId := i, id;
        }
        i := i + 1;
      }
    }

    method PairLookup(t: Table, i: nat) returns (id: int)
      requires Valid() && t.Valid() && i + 1 < n
      ensures id == PairId(t.vocab, sym[..n], i)
    {
      if |sym[i]| + |sym[i + 1]| >= SYMLEN {
        return -1;
      }
      id := t.Lookup(sym[i] + sym[i + 1]);
    }

    method MergeAt(best: nat)
      requires Valid() && best + 1 < n && |sym[best]| + |sym[best + 1]| < SYMLEN
      modifies this, sym
      ensures Valid() && n == old(n) - 1 && sym[..n] == Merge(old(sym[..n]), best)
    {
      ghost var syms := sym[..n];
      sym[best] := sym[best] + sym[best + 1];
      var i := best + 1;
      while i + 1 < n
        invariant best < i < n == |syms|
        invariant sym[best] == syms[best] + syms[best + 1]
        invariant forall j :: 0 <= j < best ==> sym[j] == syms[j]
        invariant forall j :: best < j < i ==> sym[j] == syms[j + 1]
        invariant forall j :: i <= j < n ==> sym[j] == syms[j]
      {
        sym[i] := sym[i + 1];
        i := i + 1;
      }
      n := n - 1;
      assert sym[..n] == Merge(syms, best);
    }

    method MergeAll(t: Table)
      requires Valid() && t.Valid() && t.tab as object != sym
      modifies this, sym
      ensures Valid() && t.Valid() && t.vocab == old(t.vocab)
      ensures sym[..n] == Bpe(t.vocab, old(sym[..n]))
    {
      var best := FindBest(t);
      while best >= 0
        invariant Valid() && t.Valid() && t.vocab == old(t.vocab)
        invariant Bpe(t.vocab, sym[..n]) == Bpe(t.vocab, old(sym[..n]))
        invariant best == Best(t.vocab, sym[..n])
        decreases n
      {
        MergeAt(best);
        best := FindBest(t);
      }
    }

    /** The ids of the symbols, until `max` of them are out. */
    method Emit(t: Table, ids: array<int>, off: nat, max: nat) returns (out: nat)
      requires Valid() && t.Valid() && off + max <= ids.Length && ids as object != t.tab
      modifies ids
      ensures out == Min(|Ids(t.vocab, sym[..n])|, max)
      ensures Emitted(old(ids[..]), ids[..], off, out, Ids(t.vocab, sym[..n]))
    {
      hide Emitted, Rest, Ids, IndexOf, AllFit, Table.Valid;
      out := 0;
      var i := 0;
      ghost var syms, was := sym[..n], ids[..];
      ghost var all := Ids(t.vocab, syms);
      RestStart(t.vocab, syms);
      NoneEmitted(was, off, all);
      while i < n && out < max
        invariant i <= n && out <= max && t.Valid()
        invariant Rest(t.vocab, syms, i, all, out) && Emitted(was, ids[..], off, out, all)
      {
        RestNext(t.vocab, syms, i, all, out);
        out := EmitOne(t, sym[i], ids, off, out, all, was);
        i := i + 1;
      }
      RestEnd(t.vocab, syms, i, all, out);
    }

    method EmitOne(t: Table, s: Str, ids: array<int>, off: nat, out: nat, ghost all: seq<int>, ghost was: seq<int>)
      returns (next: nat)
      requires t.Valid() && off + out < ids.Length && ids as object != t.tab
      requires Emitted(was, ids[..], off, out, all)
      requires IndexOf(t.vocab, s) >= 0 ==> out < |all| && all[out] == IndexOf(t.vocab, s)
      modifies ids
      ensures next == if IndexOf(t.vocab, s) >= 0 then out + 1 else out
      ensures Emitted(was, ids[..], off, next, all)
    {
      next := out;
      var id := t.Lookup(s);
      if id >= 0 {
        ghost var before := ids[..];
        ids[off + out] := id;
        next := out + 1;
        assert ids[off..off + next] == before[off..off + out] + [id];
      }
    }
  }

  /** The first `out` of all are at off, and nothing else was written. */
  ghost predicate Emitted(was: seq<int>, now: seq<int>, off: nat, out: nat, all: seq<int>) {
    && |now| == |was| && out <= |all| && off + out <= |now| && now[off..off + out] == all[..out]
    && now[..off] == was[..off] && now[off + out..] == was[off + out..]
  }

  lemma NoneEmitted(was: seq<int>, off: nat, all: seq<int>)
    requires off <= |was|
    ensures Emitted(was, was, off, 0, all)
  {
  }

  /** The ids from symbol i on are what is left of `all` after `out` of them. */
  ghost predicate Rest(vocab: seq<Str>, syms: seq<Str>, i: nat, all: seq<int>, out: nat) {
    i <= |syms| && out <= |all| && all[out..] == Ids(vocab, syms[i..])
  }

  lemma RestStart(vocab: seq<Str>, syms: seq<Str>)
    ensures Rest(vocab, syms, 0, Ids(vocab, syms), 0)
  {
    assert syms[0..] == syms;
  }

  lemma RestNext(vocab: seq<Str>, syms: seq<Str>, i: nat, all: seq<int>, out: nat)
    requires Rest(vocab, syms, i, all, out) && i < |syms|
    ensures var id := IndexOf(vocab, syms[i]);
            if id >= 0 then out < |all| && all[out] == id && Rest(vocab, syms, i + 1, all, out + 1)
            else Rest(vocab, syms, i + 1, all, out)
  {
    assert syms[i..][1..] == syms[i + 1..];
  }

  lemma RestEnd(vocab: seq<Str>, syms: seq<Str>, i: nat, all: seq<int>, out: nat)
    requires Rest(vocab, syms, i, all, out)
    ensures out <= |all| && (i == |syms| ==> out == |all|)
  {
  }

  /** bpe_word: one word's ids into ids[off..], at most max of them. */
  method BpeWord(t: Table, w: Str, ids: array<int>, off: nat, max: nat) returns (out: nat)
    requires t.Valid() && off + max <= ids.Length
    modifies ids
    ensures out == Min(|WordIds(t.vocab, w)|, max)
    ensures ids[off..off + out] == WordIds(t.vocab, w)[..out]
    ensures ids[..off] == old(ids[..off]) && ids[off + out..] == old(ids[off + out..])
  {
    var word := new Word();
    word.Load(w);
    word.MergeAll(t);
    out := word.Emit(t, ids, off, max);
  }

  // ---- words ----

  predicate IsSpace(c: int) { c == 32 || c == 9 || c == 10 || c == 13 }

  predicate IsAlpha(c: int) { 97 <= c <= 122 }

  predicate IsDigit(c: int) { 48 <= c <= 57 }

  predicate IsOther(c: int) { !IsSpace(c) && !IsAlpha(c) && !IsDigit(c) }

  function Lower(text: Str): (r: Str)
    ensures |r| == |text|
  {
    seq(|text|, i requires 0 <= i < |text| => LowerByte(text[i]))
  }

  function LowerByte(c: Byte): Byte { if 65 <= c <= 90 then c + 32 else c }

  /** 's 't 're 've 'm 'll 'd, in the order they are tried. */
  function Contractions(): seq<Str> {
    [[39, 115], [39, 116], [39, 114, 101], [39, 118, 101], [39, 109], [39, 108, 108], [39, 100]]
  }

  /** The length of the first contraction that p starts with, 0 if none. */
  function ContractionLen(p: Str, cs: seq<Str>): (k: nat)
    ensures k <= |p|
  {
    if cs == [] then 0 else if cs[0] <= p then |cs[0]| else ContractionLen(p, cs[1..])
  }

  /** How far a run goes from p's start, at most `most` bytes. */
  function Run(p: Str, alpha: bool, most: nat): (k: nat)
    ensures k <= |p| && k <= most
    decreases |p|
  {
    if p == [] || most == 0 || !InRun(p[0], alpha) then 0 else 1 + Run(p[1..], alpha, most - 1)
  }

  predicate InRun(c: int, alpha: bool) { if alpha then IsAlpha(c) else IsOther(c) }

  /** A run stops at the first byte that is not part of it. */
  lemma {:induction false} RunStops(p: Str, alpha: bool, most: nat, k: nat)
    requires k <= |p| && k <= most
    ensures k == Run(p, alpha, most) <==>
            (forall i :: 0 <= i < k ==> InRun(p[i], alpha)) && (k == |p| || k == most || !InRun(p[k], alpha))
    decreases |p|
  {
    if p != [] && most != 0 && InRun(p[0], alpha) {
      if k > 0 { RunStops(p[1..], alpha, most - 1, k - 1); }
      assert forall i :: 1 <= i < k ==> p[i] == p[1..][i - 1];
      assert forall i :: 0 <= i < k - 1 ==> p[1..][i] == p[i + 1];
    }
  }

  /** The first word of p: a contraction, a letter run, one digit, or a run of the rest. */
  function WordLen(p: Str): (k: nat)
    requires p != [] && !IsSpace(p[0])
    ensures 1 <= k <= |p|
  {
    var c := ContractionLen(p, Contractions());
    if c > 0 then c
    else if IsAlpha(p[0]) then Run(p, true, 255)
    else if IsDigit(p[0]) then 1
    else Run(p, false, 255)
  }

  /** Capitals become small letters and every other byte stays. */
  lemma LowerIs(text: Str, i: nat)
    requires i < |text|
    ensures Lower(text)[i] == if 'A' as int <= text[i] <= 'Z' as int then text[i] + ('a' as int - 'A' as int) else text[i]
  {
  }

  predicate Letter(c: int) { 'a' as int <= c <= 'z' as int }

  predicate Digit(c: int) { '0' as int <= c <= '9' as int }

  predicate Blank(c: int) { c == ' ' as int || c == '\t' as int || c == '\n' as int || c == '\r' as int }

  lemma KindsAre(c: int)
    ensures IsSpace(c) <==> Blank(c)
    ensures IsAlpha(c) <==> Letter(c)
    ensures IsDigit(c) <==> Digit(c)
    ensures IsOther(c) <==> !Blank(c) && !Letter(c) && !Digit(c)
  {
  }

  /** p starts with an apostrophe and this letter, or these two. */
  predicate Quoted(p: Str, x: char) { |p| >= 2 && p[0] == '\'' as int && p[1] == x as int }

  predicate QuotedTwo(p: Str, x: char, y: char) { Quoted(p, x) && |p| >= 3 && p[2] == y as int }

  /** 's 't 'm 'd are words of two, 're 've 'll of three, and nothing else is a contraction. */
  lemma ContractionIs(p: Str)
    ensures ContractionLen(p, Contractions()) ==
            if Quoted(p, 's') || Quoted(p, 't') || Quoted(p, 'm') || Quoted(p, 'd') then 2
            else if QuotedTwo(p, 'r', 'e') || QuotedTwo(p, 'v', 'e') || QuotedTwo(p, 'l', 'l') then 3 else 0
  {
    var cs := Contractions();
    Unfold(p, cs, 6);
    Unfold(p, cs, 5);
    Unfold(p, cs, 4);
    Unfold(p, cs, 3);
    Unfold(p, cs, 2);
    Unfold(p, cs, 1);
    Unfold(p, cs, 0);
    assert cs[0..] == cs;
    TwoOf(p, cs[0]);
    TwoOf(p, cs[1]);
    ThreeOf(p, cs[2]);
    ThreeOf(p, cs[3]);
    TwoOf(p, cs[4]);
    ThreeOf(p, cs[5]);
    TwoOf(p, cs[6]);
  }

  lemma TwoOf(p: Str, c: Str)
    requires |c| == 2
    ensures c <= p <==> |p| >= 2 && p[0] == c[0] && p[1] == c[1]
  {
  }

  lemma ThreeOf(p: Str, c: Str)
    requires |c| == 3
    ensures c <= p <==> |p| >= 3 && p[0] == c[0] && p[1] == c[1] && p[2] == c[2]
  {
  }

  lemma Unfold(p: Str, cs: seq<Str>, i: nat)
    requires i < |cs|
    ensures ContractionLen(p, cs[i..]) == if cs[i] <= p then |cs[i]| else ContractionLen(p, cs[i + 1..])
  {
    assert cs[i..][0] == cs[i] && cs[i..][1..] == cs[i + 1..];
  }

  /** The first word is a contraction if there is one. */
  lemma ContractionFirst(p: Str)
    requires p != [] && !IsSpace(p[0])
    ensures Quoted(p, 's') || Quoted(p, 't') || Quoted(p, 'm') || Quoted(p, 'd') ==> WordLen(p) == 2
    ensures QuotedTwo(p, 'r', 'e') || QuotedTwo(p, 'v', 'e') || QuotedTwo(p, 'l', 'l') ==> WordLen(p) == 3
  {
    ContractionIs(p);
  }

  /** Else it is a letter and all the letters after it, or one digit, or all the bytes up to the
      next blank, letter or digit; 255 at most. */
  lemma WordIs(p: Str, k: nat)
    requires p != [] && !Blank(p[0]) && 1 <= k <= |p| && k <= 255 && ContractionLen(p, Contractions()) == 0
    ensures Digit(p[0]) ==> WordLen(p) == 1
    ensures Letter(p[0]) ==>
              (WordLen(p) == k <==> (forall i :: 0 <= i < k ==> Letter(p[i])) && (k == |p| || k == 255 || !Letter(p[k])))
    ensures !Digit(p[0]) && !Letter(p[0]) ==>
              (WordLen(p) == k <==> (forall i :: 0 <= i < k ==> !Blank(p[i]) && !Letter(p[i]) && !Digit(p[i]))
                                    && (k == |p| || k == 255 || Blank(p[k]) || Letter(p[k]) || Digit(p[k])))
  {
    hide Run, Contractions, ContractionLen;
    RunStops(p, true, 255, k);
    RunStops(p, false, 255, k);
    KindsAre(p[0]);
  }

  predicate NoSpaces(w: Str) { forall i :: 0 <= i < |w| ==> !IsSpace(w[i]) }

  lemma WordHasNoSpace(p: Str)
    requires p != [] && !IsSpace(p[0])
    ensures WordLen(p) <= 255 && NoSpaces(p[..WordLen(p)])
  {
    ContractionsAreWords(p, Contractions());
    RunStops(p, true, 255, Run(p, true, 255));
    RunStops(p, false, 255, Run(p, false, 255));
  }

  lemma {:induction false} ContractionsAreWords(p: Str, cs: seq<Str>)
    requires forall i :: 0 <= i < |cs| ==> |cs[i]| <= 3 && NoSpaces(cs[i])
    ensures ContractionLen(p, cs) <= 3
    ensures NoSpaces(p[..ContractionLen(p, cs)])
    decreases |cs|
  {
    if cs != [] && !(cs[0] <= p) { ContractionsAreWords(p, cs[1..]); }
  }

  function Words(p: Str): seq<Str>
    decreases |p|
  {
    if p == [] then []
    else if IsSpace(p[0]) then Words(p[1..])
    else [p[..WordLen(p)]] + Words(p[WordLen(p)..])
  }

  function NonSpace(p: Str): Str {
    if p == [] then [] else (if IsSpace(p[0]) then [] else [p[0]]) + NonSpace(p[1..])
  }

  /** The words are the text without its white space; each fits bpe_word's buffers. */
  lemma {:induction false} WordsCoverText(p: Str)
    ensures Concat(Words(p)) == NonSpace(p)
    ensures forall w <- Words(p) :: 1 <= |w| <= 255
    decreases |p|
  {
    if p != [] {
      if IsSpace(p[0]) {
        WordsCoverText(p[1..]);
      } else {
        var k := WordLen(p);
        WordHasNoSpace(p);
        WordsCoverText(p[k..]);
        NonSpaceSplit(p, k);
        assert Words(p)[1..] == Words(p[k..]);
      }
    }
  }

  lemma {:induction false} NonSpaceSplit(p: Str, k: nat)
    requires k <= |p| && NoSpaces(p[..k])
    ensures NonSpace(p) == p[..k] + NonSpace(p[k..])
    decreases k
  {
    if k > 0 {
      assert p[..k][0] == p[0] && p[1..][..k - 1] == p[..k][1..];
      NonSpaceSplit(p[1..], k - 1);
      assert p[..k] == [p[0]] + p[1..][..k - 1] && p[1..][k - 1..] == p[k..];
      Assoc([p[0]], p[1..][..k - 1], NonSpace(p[k..]));
    } else {
      assert p[0..] == p;
    }
  }

  function AllIds(vocab: seq<Str>, words: seq<Str>): seq<int> {
    if words == [] then [] else WordIds(vocab, words[0]) + AllIds(vocab, words[1..])
  }

  /** charsiu_clip_tokenize: the start marker, as many of the words' ids as leave room for
      one more, and the end marker. */
  method Tokenize(t: Table, sot: int, eot: int, text: Str, ids: array<int>, max: nat) returns (n: int)
    requires t.Valid() && max <= ids.Length && forall c <- text :: c != 0
    modifies ids
    ensures n == -1 <==> max < 3
    ensures n != -1 ==>
              var flat := AllIds(t.vocab, Words(Lower(text)));
              2 <= n <= max && ids[..n] == [sot] + flat[..Min(|flat|, max - 2)] + [eot]
    ensures ids[if n == -1 then 0 else n..] == old(ids[if n == -1 then 0 else n..])
  {
    if max < 3 {
      return -1;
    }
    ids[0] := sot;
    n := TakeWords(t, Lower(text), ids, max, sot);
    ids[n] := eot;
    assert ids[..n + 1] == ids[..n] + [eot];
    n := n + 1;
  }

  method TakeWords(t: Table, low: Str, ids: array<int>, max: nat, ghost sot: int) returns (n: int)
    requires t.Valid() && 3 <= max <= ids.Length && ids[0] == sot
    modifies ids
    ensures var flat := AllIds(t.vocab, Words(low));
            n - 1 == Min(|flat|, max - 2) && Out(ids, n, sot, flat, old(ids[..]))
  {
    hide Out, Taken, Table.Valid, AllIds;
    ghost var words, vocab, was := Words(low), t.vocab, ids[..];
    ghost var flat := AllIds(vocab, words);
    n := 1;
    var p := low;
    TakenStart(vocab, words, max - 2);
    OutStart(ids, sot, flat);
    while p != [] && n < max - 1
      invariant 1 <= n <= max - 1 && Out(ids, n, sot, flat, was) && words == Words(p)
      invariant Taken(vocab, words, flat, n - 1, max - 2)
      invariant t.Valid() == old(t.Valid())
      decreases |p|
    {
      if IsSpace(p[0]) {
        p := p[1..];
      } else {
        var k := ScanWord(p);
        WordsNext(p);
        n := TakeWord(t, p[..k], ids, n, max, sot, flat, words, was);
        p, words := p[k..], words[1..];
      }
    }
    TakenEnd(vocab, words, flat, n - 1, max - 2);
  }

  lemma WordsNext(p: Str)
    requires p != [] && !IsSpace(p[0])
    ensures Words(p) != [] && Words(p)[0] == p[..WordLen(p)] && Words(p)[1..] == Words(p[WordLen(p)..])
  {
  }

  /** The start mark and the first ids are out, and the rest of the buffer is as it was. */
  ghost predicate Out(ids: array<int>, n: int, sot: int, flat: seq<int>, was: seq<int>)
    reads ids
  {
    && 1 <= n <= ids.Length == |was| && n - 1 <= |flat| && ids[..n] == [sot] + flat[..n - 1]
    && ids[n..] == was[n..]
  }

  lemma OutStart(ids: array<int>, sot: int, flat: seq<int>)
    requires ids.Length > 0 && ids[0] == sot
    ensures Out(ids, 1, sot, flat, ids[..])
  {
  }

  method TakeWord(t: Table, w: Str, ids: array<int>, n: int, max: nat, ghost sot: int, ghost flat: seq<int>,
                  ghost words: seq<Str>, ghost was: seq<int>) returns (n': int)
    requires t.Valid() && max <= ids.Length && 1 <= n < max - 1 && words != [] && words[0] == w
    requires Out(ids, n, sot, flat, was) && Taken(t.vocab, words, flat, n - 1, max - 2)
    modifies ids
    ensures n <= n' <= max - 1
    ensures Out(ids, n', sot, flat, was) && Taken(t.vocab, words[1..], flat, n' - 1, max - 2)
  {
    ghost var out, rest := ids[..n], ids[n..];
    var got := BpeWord(t, w, ids, n, max - 1 - n);
    n' := n + got;
    ghost var more := TakenNext(t.vocab, words, flat, n - 1, max - 2, got);
    assert ids[..n'] == out + more;
    assert ids[n'..] == rest[got..] == was[n'..];
    OutNext(out, more, sot, flat, n);
  }

  lemma OutNext(out: seq<int>, more: seq<int>, sot: int, flat: seq<int>, n: int)
    requires 1 <= n == |out| && n - 1 + |more| <= |flat|
    requires out == [sot] + flat[..n - 1] && flat[..n - 1] + more == flat[..n - 1 + |more|]
    ensures out + more == [sot] + flat[..n + |more| - 1]
  {
    AssocIds([sot], flat[..n - 1], more);
  }

  /** The word buffer filled from p, byte by byte. */
  method ScanWord(p: Str) returns (w: nat)
    requires p != [] && !IsSpace(p[0])
    ensures w == WordLen(p)
  {
    w := ContractionLen(p, Contractions());
    if w == 0 {
      if IsDigit(p[0]) {
        w := 1;
      } else {
        var alpha := IsAlpha(p[0]);
        while w < |p| && w < 255 && InRun(p[w], alpha)
          invariant w <= |p| && w <= 255 && forall i :: 0 <= i < w ==> InRun(p[i], alpha)
        {
          w := w + 1;
        }
        RunStops(p, alpha, 255, w);
      }
    }
  }

  /** `done` ids of `flat` are out and the rest are those of the words left, unless the
      room of `most` is full. */
  ghost predicate Taken(vocab: seq<Str>, words: seq<Str>, flat: seq<int>, done: int, most: int) {
    && 0 <= done <= |flat| && done <= most
    && (done < most ==> flat[done..] == AllIds(vocab, words))
  }

  lemma TakenStart(vocab: seq<Str>, words: seq<Str>, most: int)
    requires most >= 0
    ensures Taken(vocab, words, AllIds(vocab, words), 0, most)
  {
  }

  lemma TakenNext(vocab: seq<Str>, words: seq<Str>, flat: seq<int>, done: int, most: int, got: int)
    returns (more: seq<int>)
    requires Taken(vocab, words, flat, done, most) && done < most && words != []
    requires got == Min(|WordIds(vocab, words[0])|, most - done)
    ensures Taken(vocab, words[1..], flat, done + got, most)
    ensures more == WordIds(vocab, words[0])[..got] && flat[..done] + more == flat[..done + got]
  {
    var mine := WordIds(vocab, words[0]);
    SliceOfSum(flat, done, mine, AllIds(vocab, words[1..]), got);
    more := mine[..got];
  }

  lemma SliceOfSum(flat: seq<int>, done: nat, mine: seq<int>, rest: seq<int>, got: nat)
    requires done <= |flat| && flat[done..] == mine + rest && got <= |mine|
    ensures done + got <= |flat| && flat[..done] + mine[..got] == flat[..done + got]
    ensures got == |mine| ==> flat[done + got..] == rest
  {
    assert flat[done..][..got] == mine[..got];
    assert flat[done + got..] == flat[done..][got..];
  }

  lemma AssocIds(x: seq<int>, y: seq<int>, z: seq<int>)
    ensures x + (y + z) == x + y + z
  {
  }

  lemma TakenEnd(vocab: seq<Str>, words: seq<Str>, flat: seq<int>, done: int, most: int)
    requires Taken(vocab, words, flat, done, most) && (words == [] || done >= most)
    ensures done == Min(|flat|, most)
  {
  }
}
