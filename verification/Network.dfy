/**
 The language model, as far as decoding depends on it: a stack of layers, each
 turning a position's residual vector into a key/value row and then mixing it with
 the rows of the positions up to it.  What a layer computes is arbitrary.
 */
module Network {

  type Vec(==, 0, !new)
  type Row(==, 0, !new)
  type Tok = int

  /** `source(l)` is the layer whose rows layer l attends to: itself, or an earlier
      layer that keeps rows of its own. */
  datatype Net = Net(
    layers: nat,
    embed: Tok -> Vec,
    row: (nat, nat, Vec) -> Row,
    mix: (nat, Tok, Vec, seq<Row>) -> Vec,
    pick: Vec -> Tok,
    source: nat -> nat)
  {
    ghost predicate Valid() {
      forall l: nat :: l < layers ==> source(l) <= l && source(source(l)) == source(l)
    }

    /** Layer l's input at position p, in a sequence read from the start. */
    ghost function Resid(toks: seq<Tok>, l: nat, p: nat): Vec
      requires Valid() && l <= layers && p < |toks|
      decreases l, 0
    {
      if l == 0 then embed(toks[p])
      else mix(l - 1, toks[p], Resid(toks, l - 1, p), Rows(toks, source(l - 1), p + 1))
    }

    ghost function KvRow(toks: seq<Tok>, l: nat, p: nat): Row
      requires Valid() && l < layers && p < |toks|
      decreases l, 1
    {
      row(l, p, Resid(toks, l, p))
    }

    ghost function Rows(toks: seq<Tok>, l: nat, n: nat): seq<Row>
      requires Valid() && l < layers && n <= |toks|
      decreases l, 2
    {
      seq(n, i requires 0 <= i < n => KvRow(toks, l, i))
    }

    /** The token greedy decoding appends to `toks`. */
    ghost function Next(toks: seq<Tok>): Tok
      requires Valid() && |toks| > 0
    {
      pick(Resid(toks, layers, |toks| - 1))
    }

    /** The plain loop: n tokens, one at a time. */
    ghost function Greedy(toks: seq<Tok>, n: nat): (r: seq<Tok>)
      requires Valid() && |toks| > 0
      ensures |r| == |toks| + n && toks <= r
      decreases n
    {
      if n == 0 then toks else Greedy(toks + [Next(toks)], n - 1)
    }

    /** No position depends on a token after it. */
    lemma {:induction false} Causal(a: seq<Tok>, b: seq<Tok>, l: nat, p: nat)
      requires Valid() && l <= layers && p < |a| && p < |b| && a[..p + 1] == b[..p + 1]
      ensures Resid(a, l, p) == Resid(b, l, p)
      decreases l
    {
      assert a[..p + 1][p] == b[..p + 1][p];
      if l > 0 {
        Causal(a, b, l - 1, p);
        var s := source(l - 1);
        forall i | 0 <= i < p + 1 ensures KvRow(a, s, i) == KvRow(b, s, i) {
          assert a[..i + 1] == a[..p + 1][..i + 1] && b[..i + 1] == b[..p + 1][..i + 1];
          Causal(a, b, s, i);
        }
        assert Rows(a, s, p + 1) == Rows(b, s, p + 1);
      }
    }

    /** Any cut of a greedy run into passes is the same run. */
    lemma {:induction false} GreedyThen(toks: seq<Tok>, m: nat, n: nat)
      requires Valid() && |toks| > 0
      ensures Greedy(Greedy(toks, m), n) == Greedy(toks, m + n)
      decreases m
    {
      if m > 0 { GreedyThen(toks + [Next(toks)], m - 1, n); }
    }

    /** Tokens that are each the model's own next token are a greedy run. */
    lemma {:induction false} EachNextIsGreedy(toks: seq<Tok>, more: seq<Tok>)
      requires Valid() && |toks| > 0
      requires forall i :: 0 <= i < |more| ==> more[i] == Next(toks + more[..i])
      ensures toks + more == Greedy(toks, |more|)
      decreases |more|
    {
      hide Next;
      if |more| > 0 {
        assert toks + more[..0] == toks;
        forall i | 0 <= i < |more| - 1 ensures more[1..][i] == Next(toks + [more[0]] + more[1..][..i]) {
          assert toks + [more[0]] + more[1..][..i] == toks + more[..i + 1];
        }
        EachNextIsGreedy(toks + [more[0]], more[1..]);
        assert toks + [more[0]] + more[1..] == toks + more;
      } else {
        assert toks + more == toks;
      }
    }
  }
}
