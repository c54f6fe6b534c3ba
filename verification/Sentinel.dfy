/** The sentinel in the first word of each output row, and the checks made from it. */
module Sentinel {
  import opened IndexArith

  const POISON := 0xdeadbeef

  /** Where one output sits in the buffer, in words: m rows of n. */
  datatype Surface = Surface(base: nat, m: nat, n: nat)
  {
    function End(): nat { base + m * n }
  }

  function First(s: Surface, r: nat): nat { s.base + r * s.n }

  lemma FirstInside(s: Surface, r: nat)
    requires r < s.m
    ensures First(s, r) + s.n <= s.End()
  {
    MulMono(s.n, r, s.m);
  }

  ghost predicate Poisoned(words: seq<int>, s: Surface) {
    s.End() <= |words| && forall r :: 0 <= r < s.m ==> StillPoison(words, s, r)
  }

  predicate StillPoison(words: seq<int>, s: Surface, r: nat) {
    First(s, r) < |words| && words[First(s, r)] == POISON
  }

  ghost predicate AllPoisoned(words: seq<int>, ss: seq<Surface>) {
    forall i :: 0 <= i < |ss| ==> Poisoned(words, ss[i])
  }

  /** Only sentinels were written between the two. */
  ghost predicate OnlyPoison(before: seq<int>, after: seq<int>) {
    && |before| == |after|
    && forall q :: 0 <= q < |before| ==> after[q] == before[q] || after[q] == POISON
  }

  /** The first word of some row of some surface. */
  ghost predicate IsFirst(ss: seq<Surface>, q: nat) {
    exists i, r: nat :: 0 <= i < |ss| && r < ss[i].m && First(ss[i], r) == q
  }

  /** And only in the first words of these surfaces' rows. */
  ghost predicate OnlyFirsts(before: seq<int>, after: seq<int>, ss: seq<Surface>) {
    && OnlyPoison(before, after)
    && forall q :: 0 <= q < |before| && !IsFirst(ss, q) ==> after[q] == before[q]
  }

  lemma PoisonStays(before: seq<int>, after: seq<int>, s: Surface)
    requires Poisoned(before, s) && OnlyPoison(before, after)
    ensures Poisoned(after, s)
  {
    forall r | 0 <= r < s.m ensures StillPoison(after, s, r) { assert StillPoison(before, s, r); }
  }

  /** charsiu_poison_rows. */
  method PoisonRows(o: array<int>, s: Surface)
    requires s.End() <= o.Length && s.n > 0
    modifies o
    ensures Poisoned(o[..], s) && OnlyFirsts(old(o[..]), o[..], [s])
    ensures forall r: nat :: r < s.m ==> s.base + r * s.n < o.Length && o[s.base + r * s.n] == 0xdeadbeef
  {
    for r := 0 to s.m
      invariant OnlyFirsts(old(o[..]), o[..], [s])
      invariant forall q :: 0 <= q < r ==> StillPoison(o[..], s, q)
    {
      FirstInside(s, r);
      ghost var w := o[..];
      assert IsFirst([s], s.base + r * s.n) by { assert [s][0] == s; }
      o[s.base + r * s.n] := POISON;
      forall q | 0 <= q < r ensures StillPoison(o[..], s, q) { assert StillPoison(w, s, q); }
    }
    RowsAreSentinels(o[..], s);
  }

  lemma RowsAreSentinels(words: seq<int>, s: Surface)
    requires forall r :: 0 <= r < s.m ==> StillPoison(words, s, r)
    ensures forall r: nat :: r < s.m ==> s.base + r * s.n < |words| && words[s.base + r * s.n] == 0xdeadbeef
  {
    forall r: nat | r < s.m ensures s.base + r * s.n < |words| && words[s.base + r * s.n] == 0xdeadbeef {
      assert StillPoison(words, s, r);
    }
  }

  ghost predicate Inside(ss: seq<Surface>, n: nat) {
    forall i :: 0 <= i < |ss| ==> ss[i].End() <= n && ss[i].m > 0 && ss[i].n > 0
  }

  /** A group's surfaces, one after another. */
  method PoisonAll(o: array<int>, ss: seq<Surface>)
    requires Inside(ss, o.Length)
    modifies o
    ensures AllPoisoned(o[..], ss) && OnlyFirsts(old(o[..]), o[..], ss)
  {
    for i := 0 to |ss|
      invariant OnlyFirsts(old(o[..]), o[..], ss)
      invariant AllPoisoned(o[..], ss[..i])
    {
      ghost var before := o[..];
      PoisonRows(o, ss[i]);
      forall q: nat | IsFirst([ss[i]], q) ensures IsFirst(ss, q) {
        var r: nat :| r < ss[i].m && First(ss[i], r) == q;
      }
      forall j | 0 <= j < i ensures Poisoned(o[..], ss[j]) {
        assert ss[..i][j] == ss[j];
        PoisonStays(before, o[..], ss[j]);
      }
    }
    assert ss[..|ss|] == ss;
  }

  /** The rows of s, among the first k, that still carry their sentinel. */
  function Unwritten(words: seq<int>, s: Surface, k: nat): (u: nat)
    ensures u <= k
  {
    if k == 0 then 0 else Unwritten(words, s, k - 1) + if StillPoison(words, s, k - 1) then 1 else 0
  }

  /** Row r's first word is the sentinel. */
  predicate FirstWordIs(words: seq<int>, s: Surface, r: nat, val: int) {
    s.base + r * s.n < |words| && words[s.base + r * s.n] == val
  }

  lemma {:induction false} UnwrittenCounts(words: seq<int>, s: Surface, k: nat)
    ensures Unwritten(words, s, k) == |set r: nat | r < k && FirstWordIs(words, s, r, 0xdeadbeef)|
  {
    if k > 0 {
      UnwrittenCounts(words, s, k - 1);
      var all, less := set r: nat | r < k && FirstWordIs(words, s, r, 0xdeadbeef),
                       set r: nat | r < k - 1 && FirstWordIs(words, s, r, 0xdeadbeef);
      assert all == if StillPoison(words, s, k - 1) then less + {k - 1} else less;
    }
  }

  /** charsiu_poison_verdict: 0 if the op wrote anything, -1 if not, and the count. */
  method PoisonVerdict(o: array<int>, s: Surface) returns (verdict: int, unwritten: nat)
    requires s.End() <= o.Length && s.n > 0
    ensures unwritten == Unwritten(o[..], s, s.m) == |set r: nat | r < s.m && FirstWordIs(o[..], s, r, 0xdeadbeef)|
    ensures verdict == if unwritten == s.m then -1 else 0
  {
    var live := 0;
    for r := 0 to s.m
      invariant live == r - Unwritten(o[..], s, r)
    {
      FirstInside(s, r);
      if o[s.base + r * s.n] != POISON { live := live + 1; }
    }
    UnwrittenCounts(o[..], s, s.m);
    unwritten := s.m - live;
    verdict := if live > 0 then 0 else -1;
  }

  /** A job over surfaces that carried their sentinels: it wrote the rows `wrote` names,
      each with a first word that is not the sentinel, and left the others alone. */
  ghost predicate JobWrote(before: seq<int>, after: seq<int>, s: Surface, wrote: set<nat>) {
    && |before| == |after| && s.End() <= |before|
    && forall r :: 0 <= r < s.m && First(s, r) < |before| ==>
         if r in wrote then after[First(s, r)] != POISON else after[First(s, r)] == before[First(s, r)]
  }

  /** The verdict counts exactly the rows the job did not write. */
  lemma {:induction false} VerdictIsExact(before: seq<int>, after: seq<int>, s: Surface, wrote: set<nat>, k: nat)
    requires Poisoned(before, s) && JobWrote(before, after, s, wrote) && k <= s.m && s.n > 0
    ensures Unwritten(after, s, k) == |set r: nat | r < k && r !in wrote|
  {
    if k > 0 {
      VerdictIsExact(before, after, s, wrote, k - 1);
      FirstInside(s, k - 1);
      assert StillPoison(before, s, k - 1);
      var all, less := set r: nat | r < k && r !in wrote, set r: nat | r < k - 1 && r !in wrote;
      assert all == if k - 1 in wrote then less else less + {k - 1};
    }
  }

  /** charsiu_poison_matches: the buffer is poisoned for exactly this group. */
  method PoisonMatches(ss: seq<Surface>, ps: seq<Surface>) returns (yes: bool)
    ensures yes <==> ss != [] && ss == ps
  {
    if |ss| == 0 || |ss| != |ps| {
      return false;
    }
    for i := 0 to |ss|
      invariant forall j :: 0 <= j < i ==> ss[j] == ps[j]
    {
      if ss[i].base != ps[i].base || ss[i].m != ps[i].m || ss[i].n != ps[i].n {
        return false;
      }
    }
    yes := true;
  }
}
