/**
 The tokenizer's vocabulary: an open addressing table over its entries, probed
 linearly, against a scan of the entries in order.
 */
module Vocabulary {
  import opened IndexArith

  type Byte = x: int | 0 <= x < 256
  type Str = seq<Byte>

  /** FNV-1a over 32 bits. */
  function HashFrom(h: bv32, s: Str): bv32
    decreases |s|
  {
    if s == [] then h else HashFrom((h ^ (s[0] as bv32)) * 16777619, s[1..])
  }

  function Hash(s: Str): nat { HashFrom(2166136261, s) as nat }

  /** The reference: the least index at which the vocabulary has s, or -1. */
  function IndexOf(vocab: seq<Str>, s: Str): (r: int)
    ensures -1 <= r < |vocab|
    ensures r >= 0 ==> vocab[r] == s
  {
    if vocab == [] then -1
    else if vocab[0] == s then 0
    else
      var r := IndexOf(vocab[1..], s);
      if r < 0 then -1 else r + 1
  }

  /** It is the one index that has s with no earlier index having it. */
  lemma {:induction false} IndexOfIsLeast(vocab: seq<Str>, s: Str, r: int)
    ensures IndexOf(vocab, s) == r <==>
            if r < 0 then r == -1 && s !in vocab
            else r < |vocab| && vocab[r] == s && s !in vocab[..r]
  {
    if vocab != [] {
      assert vocab == [vocab[0]] + vocab[1..];
      if r > 0 {
        assert r < |vocab| ==> vocab[..r] == [vocab[0]] + vocab[1..][..r - 1];
        IndexOfIsLeast(vocab[1..], s, r - 1);
      } else if r < 0 {
        IndexOfIsLeast(vocab[1..], s, r);
      }
    }
  }

  datatype Slot = Empty | Entry(s: Str, id: nat)

  /** The slot d probes after s's home. */
  function Probe(s: Str, d: nat, cap: nat): (q: nat)
    requires cap > 0
    ensures q < cap
  {
    (Hash(s) + d) % cap
  }

  lemma ProbeNext(s: Str, d: nat, cap: nat)
    requires cap > 0
    ensures Probe(s, d + 1, cap) == (Probe(s, d, cap) + 1) % cap
  {
    ModNext(Hash(s) + d, cap);
  }

  /** Some number of probes reaches any slot. */
  lemma ProbeReaches(s: Str, q: nat, cap: nat) returns (d: nat)
    requires q < cap
    ensures Probe(s, d, cap) == q
  {
    d := ModReaches(Hash(s), q, cap);
  }

  // ---- what the table looks like after the first k entries ----

  /** `at[i]` is where entry i sits, `dist[i]` how many probes from its home. */
  ghost predicate Placed(vocab: seq<Str>, tab: seq<Slot>, at: seq<nat>, dist: seq<nat>) {
    && |at| == |dist| <= |vocab|
    && (forall i :: 0 <= i < |at| ==> at[i] < |tab| && tab[at[i]] == Entry(vocab[i], i))
    && (forall q :: 0 <= q < |tab| && tab[q].Entry? ==> tab[q].id < |at| && at[tab[q].id] == q)
    && (forall i :: 0 <= i < |at| ==> OnPath(vocab[i], i, at[i], dist[i], tab))
  }

  /** Every slot s probes before q holds an entry older than i. */
  ghost predicate OnPath(s: Str, i: nat, q: nat, d: nat, tab: seq<Slot>) {
    && |tab| > 0 && q == Probe(s, d, |tab|)
    && forall e :: 0 <= e < d ==> OlderThan(tab[Probe(s, e, |tab|)], i)
  }

  predicate OlderThan(slot: Slot, i: nat) { slot.Entry? && slot.id < i }

  /** A table with more slots than entries has an empty slot. */
  lemma HasEmpty(vocab: seq<Str>, tab: seq<Slot>, at: seq<nat>, dist: seq<nat>) returns (q: nat)
    requires Placed(vocab, tab, at, dist) && |at| < |tab|
    ensures q < |tab| && tab[q].Empty?
  {
    if forall q :: 0 <= q < |tab| ==> tab[q].Entry? {
      forall q: nat | q < |tab| ensures q in Elements(at) { assert at[tab[q].id] == q; }
      CountAll(Elements(at), |tab|);
      assert false;
    }
    q :| 0 <= q < |tab| && !tab[q].Entry?;
  }

  /** Filling the first empty slot on the next entry's path. */
  lemma PlacedNext(vocab: seq<Str>, tab: seq<Slot>, at: seq<nat>, dist: seq<nat>, d: nat)
    requires Placed(vocab, tab, at, dist) && |at| < |vocab| && |tab| > 0
    requires tab[Probe(vocab[|at|], d, |tab|)].Empty?
    requires forall e :: 0 <= e < d ==> tab[Probe(vocab[|at|], e, |tab|)].Entry?
    ensures var q := Probe(vocab[|at|], d, |tab|);
            Placed(vocab, tab[q := Entry(vocab[|at|], |at|)], at + [q], dist + [d])
  {
    var k := |at|;
    var q := Probe(vocab[k], d, |tab|);
    var tab', at', dist' := tab[q := Entry(vocab[k], k)], at + [q], dist + [d];
    forall i | 0 <= i < |at'| ensures OnPath(vocab[i], i, at'[i], dist'[i], tab') {
      if i < k {
        assert OnPath(vocab[i], i, at[i], dist[i], tab);
        forall e | 0 <= e < dist[i] ensures OlderThan(tab'[Probe(vocab[i], e, |tab|)], i) {
          assert OlderThan(tab[Probe(vocab[i], e, |tab|)], i);
        }
      }
    }
  }

  /** What linear probing finds is what a scan finds. */
  lemma FoundIsLeast(vocab: seq<Str>, tab: seq<Slot>, at: seq<nat>, dist: seq<nat>, s: Str, d: nat)
    requires Placed(vocab, tab, at, dist) && |at| == |vocab| && |tab| > 0
    requires forall e :: 0 <= e < d ==> Misses(tab[Probe(s, e, |tab|)], s)
    requires !Misses(tab[Probe(s, d, |tab|)], s)
    ensures IndexOf(vocab, s) == var slot := tab[Probe(s, d, |tab|)]; if slot.Empty? then -1 else slot.id
  {
    var slot := tab[Probe(s, d, |tab|)];
    forall i | 0 <= i < |vocab| && vocab[i] == s ensures slot.Entry? && slot.id <= i {
      assert OnPath(vocab[i], i, at[i], dist[i], tab);
      if dist[i] < d { assert false; }
      if d < dist[i] { assert OlderThan(tab[Probe(s, d, |tab|)], i); }
    }
    if slot.Entry? { assert vocab[slot.id] == s; }
    IndexOfIsLeast(vocab, s, if slot.Empty? then -1 else slot.id);
  }

  /** The probe goes on past this slot. */
  predicate Misses(slot: Slot, s: Str) { slot.Entry? && slot.s != s }

  /** vtab_build and vlookup. */
  class Table {
    var tab: array<Slot>
    var vocab: seq<Str>
    ghost var at: seq<nat>
    ghost var dist: seq<nat>

    ghost predicate Valid()
      reads this, tab
    {
      && Placed(vocab, tab[..], at, dist)
      && |at| == |vocab| < tab.Length
    }

    /** n * 2 is 32 bit arithmetic, so a vocabulary is at most 2^30 entries. */
    constructor (vocab: seq<Str>)
      requires |vocab| <= 0x4000_0000
      ensures Valid() && this.vocab == vocab && fresh(tab)
      ensures exists k :: tab.Length == Pow2(k)
    {
      var cap := 1;
      ghost var k := 0;
      while cap < |vocab| * 2
        invariant cap == Pow2(k) && k <= 31
        decreases |vocab| * 2 - cap
      {
        Pow2Of31();
        cap := cap * 2;
        k := k + 1;
      }
      tab := new Slot[cap](_ => Empty);
      this.vocab, at, dist := vocab, [], [];
      new;
      assert tab.Length == Pow2(k);
      for i := 0 to |vocab|
        invariant fresh(tab) && tab.Length == cap && |vocab| < cap
        invariant this.vocab == vocab && |at| == i && Placed(vocab, tab[..], at, dist)
      {
        Insert(i);
      }
    }

    /** The walk past occupied slots from s's home. */
    method FirstEmpty(s: Str) returns (h: nat, ghost d: nat)
      requires |at| < tab.Length && Placed(vocab, tab[..], at, dist)
      ensures h == Probe(s, d, tab.Length) && tab[h].Empty?
      ensures forall e :: 0 <= e < d ==> tab[..][Probe(s, e, tab.Length)].Entry?
    {
      h := Hash(s) % tab.Length;
      ghost var empty := HasEmpty(vocab, tab[..], at, dist);
      ghost var last := ProbeReaches(s, empty, tab.Length);
      d := 0;
      while tab[h].Entry?
        invariant h == Probe(s, d, tab.Length) && d <= last
        invariant forall e :: 0 <= e < d ==> tab[..][Probe(s, e, tab.Length)].Entry?
        decreases last - d
      {
        ProbeNext(s, d, tab.Length);
        h := (h + 1) % tab.Length;
        d := d + 1;
      }
    }

    method Insert(i: nat)
      requires i == |at| < |vocab| < tab.Length && Placed(vocab, tab[..], at, dist)
      modifies this`at, this`dist, tab
      ensures Placed(vocab, tab[..], at, dist) && |at| == i + 1
    {
      var h, d := FirstEmpty(vocab[i]);
      PlacedNext(vocab, tab[..], at, dist, d);
      ghost var t := tab[..];
      tab[h] := Entry(vocab[i], i);
      assert tab[..] == t[h := Entry(vocab[i], i)];
      at, dist := at + [h], dist + [d];
    }

    method Lookup(s: Str) returns (r: int)
      requires Valid()
      ensures r == IndexOf(vocab, s)
    {
      var h := Hash(s) % tab.Length;
      ghost var empty := HasEmpty(vocab, tab[..], at, dist);
      ghost var last := ProbeReaches(s, empty, tab.Length);
      ghost var d := 0;
      while tab[h].Entry? && tab[h].s != s
        invariant h == Probe(s, d, tab.Length) && d <= last
        invariant forall e :: 0 <= e < d ==> Misses(tab[..][Probe(s, e, tab.Length)], s)
        decreases last - d
      {
        ProbeNext(s, d, tab.Length);
        h := (h + 1) % tab.Length;
        d := d + 1;
      }
      FoundIsLeast(vocab, tab[..], at, dist, s, d);
      r := if tab[h].Entry? then tab[h].id else -1;
    }
  }
}
