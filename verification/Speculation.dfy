/**
 Speculative decoding over the key/value cache: the plain forward pass, the batched
 forward pass that runs layer by layer over several rows, the prompt lookup drafter,
 and the pass that drafts, verifies, accepts a prefix and rolls back.
 */
module Speculation {
  import opened Network

  datatype Option<+T> = None | Some(value: T)

  class State {
    const net: Net
    const nCtx: nat
    var cache: array2<Row>
    var pos: nat

    constructor (net: Net, nCtx: nat)
      ensures this.net == net && this.nCtx == nCtx && pos == 0 && fresh(cache)
      ensures Shape()
    {
      this.net := net;
      this.nCtx := nCtx;
      cache := new Row[net.layers, nCtx];
      pos := 0;
    }

    ghost predicate Shape()
      reads this
    {
      cache.Length0 == net.layers && cache.Length1 == nCtx
    }

    /** The first |toks| positions of every layer that keeps rows are those of `toks`. */
    ghost predicate Holds(toks: seq<Tok>)
      reads this, cache
      requires Shape() && net.Valid()
    {
      && |toks| <= nCtx
      && forall l, p :: 0 <= l < net.layers && 0 <= p < |toks| && net.source(l) == l ==>
           cache[l, p] == net.KvRow(toks, l, p)
    }

    /** Ready to be fed the last token of `text`: everything before it is cached. */
    ghost predicate Ready(text: seq<Tok>)
      reads this, cache
      requires Shape() && net.Valid()
    {
      |text| > 0 && pos == |text| - 1 && Holds(text[..pos])
    }

    /** The rows a layer attends to at position p: cells [0, p] and no other. */
    method ReadRows(l: nat, p: nat, ghost toks: seq<Tok>) returns (rows: seq<Row>)
      requires Shape() && net.Valid() && l < net.layers && net.source(l) == l
      requires p < nCtx && p < |toks|
      requires forall i :: 0 <= i <= p ==> cache[l, i] == net.KvRow(toks, l, i)
      ensures rows == net.Rows(toks, l, p + 1)
    {
      rows := [];
      for i := 0 to p + 1
        invariant |rows| == i && forall j :: 0 <= j < i ==> rows[j] == net.KvRow(toks, l, j)
      {
        rows := rows + [cache[l, i]];
      }
    }

    /** llama_forward: one token through every layer, its row written on the way. */
    method Forward(tok: Tok, at: nat, ghost before: seq<Tok>) returns (r: Option<Tok>)
      requires Shape() && net.Valid() && |before| == at && Holds(before)
      modifies this`pos, cache
      ensures r.None? <==> at >= nCtx
      ensures r.None? ==> pos == old(pos) && Holds(before)
      ensures r.Some? ==> r.value == net.Next(before + [tok])
      ensures r.Some? ==> pos == at + 1 && Holds(before + [tok])
    {
      if at >= nCtx {
        return None;
      }
      ghost var toks := before + [tok];
      PrefixRows(before, toks);
      var x := net.embed(tok);
      for l := 0 to net.layers
        invariant x == net.Resid(toks, l, at)
        invariant forall k, p :: 0 <= k < net.layers && 0 <= p < at && net.source(k) == k ==>
                    cache[k, p] == net.KvRow(toks, k, p)
        invariant forall k :: 0 <= k < l && net.source(k) == k ==> cache[k, at] == net.KvRow(toks, k, at)
        invariant pos == old(pos)
      {
        if net.source(l) == l {
          cache[l, at] := net.row(l, at, x);
        }
        var rows := ReadRows(net.source(l), at, toks);
        x := net.mix(l, tok, x, rows);
      }
      pos := at + 1;
      r := Some(net.pick(x));
    }

    lemma PrefixRows(before: seq<Tok>, toks: seq<Tok>)
      requires Shape() && net.Valid() && Holds(before) && before <= toks
      ensures forall l, p :: 0 <= l < net.layers && 0 <= p < |before| && net.source(l) == l ==>
                cache[l, p] == net.KvRow(toks, l, p)
    {
      forall l, p | 0 <= l < net.layers && 0 <= p < |before| && net.source(l) == l
        ensures cache[l, p] == net.KvRow(toks, l, p)
      {
        assert before[..p + 1] == toks[..p + 1];
        net.Causal(before, toks, l, p);
      }
    }

    lemma HoldsShorter(toks: seq<Tok>, before: seq<Tok>)
      requires Shape() && net.Valid() && before <= toks && |before| <= nCtx
      requires forall l, p :: 0 <= l < net.layers && 0 <= p < |before| && net.source(l) == l ==>
                 cache[l, p] == net.KvRow(toks, l, p)
      ensures Holds(before)
    {
      forall l, p | 0 <= l < net.layers && 0 <= p < |before| && net.source(l) == l
        ensures cache[l, p] == net.KvRow(before, l, p)
      {
        assert before[..p + 1] == toks[..p + 1];
        net.Causal(toks, before, l, p);
      }
    }

    /** batch_layers: the same forward for several rows, a layer at a time.  It refuses
        a batch of one and whatever the model or the device refuses; `failAt` is the
        layer whose attention failed, if one did, by which time rows are written. */
    method BatchLayers(rows: seq<Tok>, at: nat, refused: bool, failAt: nat, ghost before: seq<Tok>)
      returns (ok: bool, xs: seq<Vec>)
      requires Shape() && net.Valid() && |before| == at && Holds(before)
      requires at + |rows| <= nCtx
      modifies cache
      ensures ok <==> |rows| >= 2 && !refused && failAt >= net.layers
      ensures !ok ==> Holds(before)
      ensures ok ==> Holds(before + rows) && |xs| == |rows|
      ensures ok ==> forall r :: 0 <= r < |rows| ==> xs[r] == net.Resid(before + rows, net.layers, at + r)
    {
      ok, xs := false, [];
      if |rows| < 2 || refused {
        return;
      }
      ghost var toks := before + rows;
      PrefixRows(before, toks);
      var n := |rows|;
      xs := seq(n, r requires 0 <= r < n => net.embed(rows[r]));
      for l := 0 to net.layers
        invariant |xs| == n && forall r :: 0 <= r < n ==> xs[r] == net.Resid(toks, l, at + r)
        invariant forall k, p :: 0 <= k < net.layers && 0 <= p < at && net.source(k) == k ==>
                    cache[k, p] == net.KvRow(toks, k, p)
        invariant forall k, p :: 0 <= k < l && at <= p < at + n && net.source(k) == k ==>
                    cache[k, p] == net.KvRow(toks, k, p)
        invariant failAt >= l
      {
        if net.source(l) == l {
          for r := 0 to n
            invariant forall k, p :: 0 <= k < net.layers && 0 <= p < at && net.source(k) == k ==>
                        cache[k, p] == net.KvRow(toks, k, p)
            invariant forall k, p :: 0 <= k < l && at <= p < at + n && net.source(k) == k ==>
                        cache[k, p] == net.KvRow(toks, k, p)
            invariant forall p :: at <= p < at + r ==> cache[l, p] == net.KvRow(toks, l, p)
          {
            cache[l, at + r] := net.row(l, at + r, xs[r]);
          }
        }
        if l == failAt {
          HoldsShorter(toks, before);
          return;
        }
        ghost var x0 := xs;
        for r := 0 to n
          invariant |xs| == n
          invariant forall q :: 0 <= q < r ==> xs[q] == net.Resid(toks, l + 1, at + q)
          invariant forall q :: r <= q < n ==> xs[q] == x0[q]
          modifies {}
        {
          var kv := ReadRows(net.source(l), at + r, toks);
          xs := xs[r := net.mix(l, rows[r], xs[r], kv)];
        }
      }
      HoldsShorter(toks, toks);
      ok := true;
    }

    /** llama_verify_batch: the head on every row. */
    method VerifyBatch(rows: seq<Tok>, at: nat, refused: bool, failAt: nat, ghost before: seq<Tok>)
      returns (ok: bool, picks: seq<Tok>)
      requires Shape() && net.Valid() && |before| == at && Holds(before)
      requires at + |rows| <= nCtx
      modifies this`pos, cache
      ensures ok <==> |rows| >= 2 && !refused && failAt >= net.layers
      ensures !ok ==> Holds(before) && pos == old(pos)
      ensures ok ==> Holds(before + rows) && pos == at + |rows| && |picks| == |rows|
      ensures ok ==> forall r :: 0 <= r < |rows| ==> picks[r] == net.Next(before + rows[..r + 1])
    {
      var xs;
      picks := [];
      ok, xs := BatchLayers(rows, at, refused, failAt, before);
      if !ok {
        return;
      }
      for r := 0 to |rows|
        invariant |picks| == r
        invariant forall q :: 0 <= q < r ==> picks[q] == net.Next(before + rows[..q + 1])
        modifies {}
      {
        ghost var upto := before + rows[..r + 1];
        assert upto[..at + r + 1] == (before + rows)[..at + r + 1];
        net.Causal(before + rows, upto, net.layers, at + r);
        picks := picks + [net.pick(xs[r])];
      }
      pos := at + |rows|;
    }
  }

  lemma SamePrefixes(drafts: seq<Tok>)
    requires drafts != []
    ensures forall i :: 0 <= i < |drafts| ==> drafts[..|drafts| - 1][..i] == drafts[..i]
  {
  }

  /** How many drafts the model agrees with before the first it does not. */
  ghost function Agreed(net: Net, text: seq<Tok>, drafts: seq<Tok>): (a: nat)
    requires net.Valid() && |text| > 0
    ensures a <= |drafts|
    ensures forall i :: 0 <= i < a ==> drafts[i] == net.Next(text + drafts[..i])
    ensures a < |drafts| ==> drafts[a] != net.Next(text + drafts[..a])
    decreases |drafts|
  {
    if drafts == [] then 0
    else
      var front := drafts[..|drafts| - 1];
      var a := Agreed(net, text, front);
      SamePrefixes(drafts);
      if a == |front| && drafts[a] == net.Next(text + front) then a + 1 else a
  }

  lemma AgreedUnique(net: Net, text: seq<Tok>, drafts: seq<Tok>, a: nat)
    requires net.Valid() && |text| > 0 && a <= |drafts|
    requires forall i :: 0 <= i < a ==> drafts[i] == net.Next(text + drafts[..i])
    requires a < |drafts| ==> drafts[a] != net.Next(text + drafts[..a])
    ensures a == Agreed(net, text, drafts)
  {
  }

  lemma NoneAgreed(net: Net, text: seq<Tok>)
    requires net.Valid() && |text| > 0
    ensures Agreed(net, text, []) == 0
  {
  }

  /** hist[i..] repeats the last ng tokens of the history. */
  predicate Repeats(hist: seq<Tok>, ng: nat, i: int) {
    && 0 <= i && i + ng < |hist|
    && hist[i..i + ng] == hist[|hist| - ng..]
  }

  /** Prompt lookup: what followed the newest earlier occurrence of the longest n-gram. */
  ghost predicate IsLookup(hist: seq<Tok>, ngram: nat, k: nat, drafts: seq<Tok>) {
    if drafts == [] then
      k == 0 || forall ng, i :: 1 <= ng <= ngram ==> !Repeats(hist, ng, i)
    else
      exists ng: nat, i: nat :: IsNewestLongest(hist, ngram, ng, i)
        && |drafts| <= k && i + ng + |drafts| <= |hist|
        && drafts == hist[i + ng..i + ng + |drafts|]
        && (|drafts| == k || i + ng + |drafts| == |hist|)
  }

  ghost predicate IsNewestLongest(hist: seq<Tok>, ngram: nat, ng: nat, i: int) {
    && 1 <= ng <= ngram && Repeats(hist, ng, i)
    && (forall j :: j > i ==> !Repeats(hist, ng, j))
    && (forall g, j :: ng < g <= ngram ==> !Repeats(hist, g, j))
  }

  lemma RepeatsIs(hist: seq<Tok>, ng: nat, i: nat)
    requires i + ng < |hist|
    ensures Repeats(hist, ng, i) <==> hist[i..i + ng] == hist[|hist| - ng..|hist|]
  {
  }

  lemma TakeSlice(hist: array<Tok>, n: nat, a: nat, b: nat)
    requires a <= b <= n <= hist.Length
    ensures hist[..n][a..b] == hist[a..b]
  {
  }

  lemma NoneBeyond(hist: seq<Tok>, ng: nat)
    ensures forall j :: j < 0 || j + ng >= |hist| ==> !Repeats(hist, ng, j)
  {
  }

  lemma LookedUp(hist: seq<Tok>, ngram: nat, k: nat, ng: nat, i: nat, drafts: seq<Tok>)
    requires 1 <= ng <= ngram && i + ng < |hist| && Repeats(hist, ng, i)
    requires (forall j :: j > i ==> !Repeats(hist, ng, j)) && forall g, j :: ng < g <= ngram ==> !Repeats(hist, g, j)
    requires var d := if |hist| - (i + ng) < k then |hist| - (i + ng) else k; drafts == hist[i + ng..i + ng + d]
    ensures IsLookup(hist, ngram, k, drafts)
  {
    hide Repeats;
    assert IsNewestLongest(hist, ngram, ng, i);
  }

  lemma NothingFound(hist: seq<Tok>, ngram: nat, k: nat)
    requires forall g, j :: 0 < g <= ngram ==> !Repeats(hist, g, j)
    ensures IsLookup(hist, ngram, k, [])
  {
    hide Repeats;
  }

  class Spec {
    const k: nat
    const ngram: nat := 3
    const junk: bool
    const nVocab: nat
    var off: bool
    var hist: array<Tok>
    var nHist: nat
    var passes: nat
    var plain: nat
    var drafted: nat
    var accepted: nat
    var committed: nat

    /** llama_spec_init: at most five drafts a pass. */
    constructor (k: int, nVocab: nat, nCtx: nat, junk: bool)
      requires nVocab > 0
      ensures Valid() && !off && Heard([]) && hist.Length == nCtx && fresh(hist)
      ensures this.k == if 1 <= k <= 5 then k else if k < 1 then 1 else 5
      ensures this.junk == junk && this.nVocab == nVocab && committed == plain == passes == accepted == drafted == 0
    {
      this.k := if k < 1 then 1 else if k > 5 then 5 else k;
      this.junk := junk;
      this.nVocab := nVocab;
      off := false;
      hist := new Tok[nCtx];
      nHist := 0;
      passes, plain, drafted, accepted, committed := 0, 0, 0, 0, 0;
    }

    ghost predicate Valid()
      reads this
    {
      1 <= k <= 5 && nHist <= hist.Length && nVocab > 0
    }

    /** The history is `text`, cut where the buffer is full. */
    ghost predicate Heard(text: seq<Tok>)
      requires Valid()
      reads this, hist
    {
      nHist == (if |text| < hist.Length then |text| else hist.Length) && hist[..nHist] == text[..nHist]
    }

    method Push(tok: Tok)
      requires Valid()
      modifies this`nHist, hist
      ensures Valid()
      ensures forall text: seq<Tok> :: old(Heard(text)) ==> Heard(text + [tok])
    {
      if nHist < hist.Length {
        hist[nHist] := tok;
        nHist := nHist + 1;
      }
    }

    /** The newest earlier occurrence of the last ng tokens, or -1. */
    method FindRepeat(ng: nat) returns (i: int)
      requires Valid()
      ensures -1 <= i && (i >= 0 ==> i + ng < nHist && Repeats(hist[..nHist], ng, i))
      ensures forall j :: j > i || i < 0 ==> !Repeats(hist[..nHist], ng, j)
    {
      hide Repeats;
      var n := nHist;
      ghost var h := hist[..n];
      i := n - ng - 1;
      NoneBeyond(h, ng);
      while i >= 0
        invariant i < n - ng && (i >= -1 || i == n - ng - 1)
        invariant forall j :: j > i ==> !Repeats(h, ng, j)
      {
        TakeSlice(hist, n, i, i + ng);
        TakeSlice(hist, n, n - ng, n);
        RepeatsIs(h, ng, i);
        if hist[i..i + ng] == hist[n - ng..n] {
          return;
        }
        i := i - 1;
      }
      i := -1;
    }

    /** spec_draft. */
    method Draft() returns (drafts: seq<Tok>)
      requires Valid()
      ensures |drafts| <= k
      ensures junk ==> |drafts| == k && forall i :: 0 <= i < k ==> drafts[i] == (nHist * 104729 + i * 7919 + 17) % 0x1_0000_0000 % nVocab
      ensures !junk ==> IsLookup(hist[..nHist], ngram, k, drafts)
    {
      hide Repeats, IsLookup, IsNewestLongest;
      var n := nHist;
      if junk {
        return seq(k, i requires 0 <= i < k => (n * 104729 + i * 7919 + 17) % 0x1_0000_0000 % nVocab);
      }
      ghost var h := hist[..n];
      var ng := ngram;
      while ng >= 1
        invariant 0 <= ng <= ngram
        invariant forall g, j :: ng < g <= ngram ==> !Repeats(h, g, j)
      {
        var i := FindRepeat(ng);
        if i >= 0 {
          var d := if n - (i + ng) < k then n - (i + ng) else k;
          drafts := hist[i + ng..i + ng + d];
          TakeSlice(hist, n, i + ng, i + ng + d);
          LookedUp(h, ngram, k, ng, i, drafts);
          return;
        }
        ng := ng - 1;
      }
      drafts := [];
      NothingFound(h, ngram, k);
    }

    method Tally(d: nat, a: nat, nc: nat)
      modifies this`passes, this`drafted, this`accepted, this`committed
      ensures passes == old(passes) + 1 && drafted == old(drafted) + d
      ensures accepted == old(accepted) + a && committed == old(committed) + nc
    {
      passes := passes + 1;
      drafted := drafted + d;
      accepted := accepted + a;
      committed := committed + nc;
    }

    /** Row 0 is the last committed token, rows 1..d the drafts. */
    method Verify(s: State, tok: Tok, drafts: seq<Tok>, refused: bool, failAt: nat, ghost text: seq<Tok>)
      returns (ok: bool, picks: seq<Tok>, ghost rows: seq<Tok>)
      requires s.Shape() && s.net.Valid() && s.Ready(text) && tok == text[|text| - 1]
      requires 1 <= |drafts| && s.pos + 1 + |drafts| + 1 <= s.nCtx
      modifies s`pos, s.cache
      ensures ok <==> !refused && failAt >= s.net.layers
      ensures !ok ==> s.Ready(text)
      ensures ok ==> [tok] + drafts <= rows && s.Holds(text[..|text| - 1] + rows) && |drafts| < |picks|
      ensures ok ==> forall r :: 0 <= r <= |drafts| ==> picks[r] == s.net.Next(text + drafts[..r])
    {
      var pos0 := s.pos;
      var batch := [tok] + drafts;
      // an odd width is padded with a row nothing reads
      if |batch| % 2 == 1 {
        batch := batch + [drafts[|drafts| - 1]];
      }
      rows := batch;
      ghost var before := text[..pos0];
      ok, picks := s.VerifyBatch(batch, pos0, refused, failAt, before);
      if !ok {
        s.pos := pos0;
        return;
      }
      forall r | 0 <= r <= |drafts| ensures picks[r] == s.net.Next(text + drafts[..r]) {
        assert before + rows[..r + 1] == text + drafts[..r];
      }
    }

    /** The accept loop: the drafts that match, then the model's own token. */
    method Accept(drafts: seq<Tok>, picks: seq<Tok>, out: array<Tok>, maxOut: nat) returns (a: nat, nc: nat)
      requires |drafts| < |picks| && 1 <= maxOut <= out.Length
      modifies out
      ensures a <= |drafts| && forall i :: 0 <= i < a ==> picks[i] == drafts[i]
      ensures a < |drafts| ==> picks[a] != drafts[a]
      ensures nc == (if a < maxOut then a + 1 else maxOut)
      ensures out[..nc] == if a < maxOut then drafts[..a] + [picks[a]] else drafts[..maxOut]
    {
      a := 0;
      while a < |drafts| && picks[a] == drafts[a]
        invariant a <= |drafts| && forall i :: 0 <= i < a ==> picks[i] == drafts[i]
      {
        a := a + 1;
      }
      nc := 0;
      while nc < a && nc < maxOut
        invariant 0 <= nc <= a && nc <= maxOut && out[..nc] == drafts[..nc]
      {
        out[nc] := drafts[nc];
        nc := nc + 1;
      }
      if nc < maxOut {
        out[nc] := picks[a];
        nc := nc + 1;
      }
    }

    method VerifyAndAccept(s: State, tok: Tok, drafts: seq<Tok>, out: array<Tok>, maxOut: nat,
                           refused: bool, failAt: nat, ghost text: seq<Tok>)
      returns (a: nat, nc: int)
      requires s.Shape() && s.net.Valid() && s.Ready(text) && tok == text[|text| - 1]
      requires 1 <= |drafts| && s.pos + 1 + |drafts| + 1 <= s.nCtx
      requires 1 <= maxOut <= out.Length
      modifies s`pos, s.cache, out
      ensures nc == -1 <==> refused || failAt < s.net.layers
      ensures nc == -1 ==> s.Ready(text) && unchanged(out)
      ensures nc != -1 ==> a == Agreed(s.net, text, drafts) && Committed(s, text, out, nc, maxOut, a)
    {
      hide Agreed, Net.Greedy, Net.Next;
      var pos0 := s.pos;
      var ok, picks, rows := Verify(s, tok, drafts, refused, failAt, text);
      if !ok {
        return 0, -1;
      }
      a, nc := Accept(drafts, picks, out, maxOut);
      AgreedUnique(s.net, text, drafts, a);
      s.pos := pos0 + 1 + a;
      MoreIsGreedy(s.net, text, drafts, out[..nc], a, maxOut);
      ReadyExactly(s, text, drafts, rows, out[..nc], a, maxOut);
    }

    method PushAll(out: array<Tok>, n: nat, ghost text: seq<Tok>)
      requires Valid() && Heard(text) && n <= out.Length && out != hist
      modifies this`nHist, hist
      ensures Valid() && Heard(text + out[..n])
    {
      assert text + out[..0] == text;
      for i := 0 to n
        invariant Valid() && Heard(text + out[..i])
      {
        Push(out[i]);
        assert text + out[..i] + [out[i]] == text + out[..i + 1];
      }
    }

    /** The verifying half of a pass, for drafts from anywhere: one batched forward,
        the longest agreeing prefix, the model's own token after it, and the roll back. */
    method Pass(s: State, tok: Tok, drafts: seq<Tok>, out: array<Tok>, maxOut: nat,
                refused: bool, failAt: nat, ghost text: seq<Tok>)
      returns (nc: int)
      requires Valid() && s.Shape() && s.net.Valid() && s.Ready(text) && tok == text[|text| - 1]
      requires 1 <= |drafts| && s.pos + 1 + |drafts| + 1 <= s.nCtx
      requires 1 <= maxOut <= out.Length
      requires out != hist && Heard(text)
      modifies this`nHist, this`passes, this`drafted, this`accepted, this`committed, hist, s`pos, s.cache, out
      ensures Valid()
      ensures nc == -1 <==> refused || failAt < s.net.layers
      ensures nc == -1 ==> s.Ready(text) && unchanged(this) && unchanged(hist) && unchanged(out)
      ensures nc != -1 ==> accepted == old(accepted) + Agreed(s.net, text, drafts)
      ensures nc != -1 ==> Committed(s, text, out, nc, maxOut, accepted - old(accepted))
      ensures nc != -1 ==> Heard(text + out[..nc - 1])
      ensures nc != -1 ==> passes == old(passes) + 1 && committed == old(committed) + nc
    {
      var a;
      a, nc := VerifyAndAccept(s, tok, drafts, out, maxOut, refused, failAt, text);
      if nc == -1 {
        return;
      }
      PushAll(out, nc - 1, text);
      Tally(|drafts|, a, nc);
    }

    /** llama_spec_step.  `refused` and `failAt` say what the batched forward would do
        with this pass; after a refusal the step is taken again without drafting. */
    method Step(s: State, tok: Tok, out: array<Tok>, maxOut: nat, refused: bool, failAt: nat, ghost text: seq<Tok>)
      returns (nc: int, ghost drafts: seq<Tok>)
      requires Valid() && s.Shape() && s.net.Valid() && s.Ready(text) && tok == text[|text| - 1]
      requires 1 <= maxOut <= out.Length && out != hist
      requires !off ==> Heard(text[..|text| - 1])
      modifies this, hist, s`pos, s.cache, out
      ensures Valid() && hist == old(hist)
      ensures nc == -1 <==> old(s.pos) >= s.nCtx
      ensures nc == -1 ==> s.Ready(text) && plain + committed == old(plain + committed)
      ensures old(accepted) <= accepted <= old(accepted) + k
      ensures nc != -1 ==> accepted == old(accepted) + Agreed(s.net, text, drafts)
      ensures nc != -1 ==> Committed(s, text, out, nc, maxOut, accepted - old(accepted))
      ensures !old(off) && !refused && failAt >= s.net.layers ==> Drafted(text, old(s.pos), s.nCtx, drafts)
      ensures old(off) || refused || failAt < s.net.layers ==> drafts == []
      ensures nc != -1 ==> passes == old(passes) + 1 && plain + committed == old(plain + committed) + nc
      ensures nc != -1 && !off ==> Heard(text + out[..nc - 1])
      ensures old(off) ==> off
      ensures off && !old(off) ==> refused || failAt < s.net.layers
      decreases !off
    {
      hide Agreed, IsLookup, Spec.Drafted, Net.Greedy, Net.Next, State.Holds, Committed;
      var rows := Choose(s, tok, text);
      drafts := rows;
      if rows == [] {
        NoneAgreed(s.net, text);
        nc := PlainPass(s, tok, out, maxOut, text);
        return;
      }
      nc := Pass(s, tok, rows, out, maxOut, refused, failAt, text);
      if nc == -1 {
        off := true;
        nc, drafts := Step(s, tok, out, maxOut, refused, failAt, text);
      }
    }

    /** The drafts of a pass on `text`: those looked up in it, as far as the history's buffer
        holds it, or none if their rows would not fit the cache. */
    ghost predicate Drafted(text: seq<Tok>, at: nat, nCtx: nat, drafts: seq<Tok>)
      reads this`hist
    {
      exists found: seq<Tok> ::
        && |found| <= k
        && (if junk then |found| == k else IsLookup(text[..if |text| < hist.Length then |text| else hist.Length], ngram, k, found))
        && drafts == if at + 1 + |found| + 1 > nCtx then [] else found
    }

    /** The history takes the token, and the drafter speaks if every row fits the cache. */
    method Choose(s: State, tok: Tok, ghost text: seq<Tok>) returns (drafts: seq<Tok>)
      requires Valid() && |text| > 0 && tok == text[|text| - 1]
      modifies this`nHist, hist
      ensures Valid() && |drafts| <= k
      ensures drafts != [] ==> !off && s.pos + 1 + |drafts| + 1 <= s.nCtx
      ensures old(Heard(text[..|text| - 1])) ==> Heard(text)
      ensures old(Heard(text[..|text| - 1])) && !off ==> Drafted(text, s.pos, s.nCtx, drafts)
      ensures off ==> drafts == []
    {
      hide IsLookup;
      Push(tok);
      assert text[..|text| - 1] + [tok] == text;
      drafts := [];
      if !off {
        drafts := Draft();
      }
      if drafts != [] && s.pos + 1 + |drafts| + 1 > s.nCtx {
        drafts := [];
      }
    }

    method PlainPass(s: State, tok: Tok, out: array<Tok>, maxOut: nat, ghost text: seq<Tok>) returns (nc: int)
      requires Valid() && s.Shape() && s.net.Valid() && s.Ready(text) && tok == text[|text| - 1]
      requires 1 <= maxOut <= out.Length && out != hist
      modifies this`passes, this`plain, s`pos, s.cache, out
      ensures nc == -1 <==> old(s.pos) >= s.nCtx
      ensures nc == -1 ==> s.Ready(text) && unchanged(this)
      ensures nc != -1 ==> nc == 1 && Committed(s, text, out, nc, maxOut, 0)
      ensures nc != -1 ==> passes == old(passes) + 1 && plain == old(plain) + 1
    {
      var r := s.Forward(tok, s.pos, text[..s.pos]);
      assert text[..|text| - 1] + [tok] == text;
      if r.None? {
        return -1;
      }
      out[0] := r.value;
      passes := passes + 1;
      plain := plain + 1;
      nc := 1;
      assert out[..1] == [s.net.Next(text)];
      assert s.net.Greedy(text, 1) == text + [s.net.Next(text)];
      assert (text + out[..1])[..|text|] == text;
    }
  }

  /** Fit to take a step on `text`. */
  ghost predicate Running(s: State, sp: Spec, text: seq<Tok>)
    reads s, s.cache, sp, sp.hist
  {
    && sp.Valid() && s.Shape() && s.net.Valid() && s.Ready(text)
    && (!sp.off ==> sp.Heard(text[..|text| - 1]))
  }

  /** One turn of the generation loop: a step into a sixteen token buffer, fed the last
      token of the turn before it. */
  method Turn(s: State, sp: Spec, text: seq<Tok>, pend: array<Tok>, refused: bool, failAt: nat)
    returns (more: seq<Tok>)
    requires Running(s, sp, text) && pend != sp.hist && pend.Length == 16
    modifies sp, sp.hist, s`pos, s.cache, pend
    ensures sp.hist == old(sp.hist)
    ensures more == [] <==> old(s.pos) >= s.nCtx
    ensures text + more == s.net.Greedy(text, |more|)
    ensures more == [] ==> s.Shape() && s.Ready(text)
    ensures more != [] ==> Running(s, sp, text + more)
  {
    hide Agreed, IsLookup, Spec.Drafted, Net.Next, State.Holds;
    var nc, _ := sp.Step(s, text[|text| - 1], pend, 16, refused, failAt, text);
    if nc == -1 {
      more := [];
      assert text + more == text;
      return;
    }
    more := pend[..nc];
    ghost var grown := text + more;
    assert grown[..|grown| - 1] == text + pend[..nc - 1];
  }

  /** `text` is what the plain greedy loop makes of `prompt`. */
  ghost predicate IsGreedyRun(net: Net, prompt: seq<Tok>, text: seq<Tok>) {
    net.Valid() && 0 < |prompt| <= |text| && text == net.Greedy(prompt, |text| - |prompt|)
  }

  lemma Joined(net: Net, prompt: seq<Tok>, text: seq<Tok>, more: seq<Tok>)
    requires IsGreedyRun(net, prompt, text) && text + more == net.Greedy(text, |more|)
    ensures IsGreedyRun(net, prompt, text + more)
  {
    hide Net.Greedy, Net.Valid;
    net.GreedyThen(prompt, |text| - |prompt|, |more|);
  }

  /** The generation loop: n turns, any of them refused, or fewer if the context fills. */
  method Generate(s: State, sp: Spec, prompt: seq<Tok>, n: nat, refused: nat -> bool, failAt: nat -> nat)
    returns (text: seq<Tok>)
    requires Running(s, sp, prompt)
    modifies sp, sp.hist, s`pos, s.cache
    ensures IsGreedyRun(s.net, prompt, text)
    ensures |text| >= |prompt| + n || |text| > s.nCtx
  {
    text := prompt;
    var pend := new Tok[16];
    for i := 0 to n
      invariant Running(s, sp, text) && IsGreedyRun(s.net, prompt, text) && |text| >= |prompt| + i
      invariant sp.hist == old(sp.hist) && pend != sp.hist && fresh(pend)
    {
      var more := Turn(s, sp, text, pend, refused(i), failAt(i));
      if more == [] {
        return;
      }
      Joined(s.net, prompt, text, more);
      text := text + more;
    }
  }

  /** What a pass leaves: nc tokens of the greedy run, and a cache ready for the last of
      them exactly when the caller's buffer took every token the pass produced. */
  ghost predicate Committed(s: State, text: seq<Tok>, out: array<Tok>, nc: int, maxOut: nat, a: int)
    reads s, s.cache, out
    requires s.Shape() && s.net.Valid() && |text| > 0
  {
    && 1 <= nc <= maxOut && nc <= out.Length
    && nc == (if a < maxOut then a + 1 else maxOut)
    && text + out[..nc] == s.net.Greedy(text, nc)
    && (s.Ready(text + out[..nc]) <==> a < maxOut)
  }

  /** The a accepted drafts and the model's token after them, as far as maxOut lets them out. */
  ghost predicate Emitted(net: Net, text: seq<Tok>, drafts: seq<Tok>, more: seq<Tok>, a: nat, maxOut: nat)
    requires net.Valid() && |text| > 0
  {
    && a == Agreed(net, text, drafts)
    && more == if a < maxOut then drafts[..a] + [net.Next(text + drafts[..a])] else drafts[..maxOut]
  }

  lemma MoreIsGreedy(net: Net, text: seq<Tok>, drafts: seq<Tok>, more: seq<Tok>, a: nat, maxOut: nat)
    requires net.Valid() && |text| > 0 && Emitted(net, text, drafts, more, a, maxOut)
    ensures text + more == net.Greedy(text, |more|)
  {
    forall i | 0 <= i < |more| ensures more[i] == net.Next(text + more[..i]) {
      assert more[..i] == drafts[..i];
    }
    net.EachNextIsGreedy(text, more);
  }

  lemma ReadyExactly(s: State, text: seq<Tok>, drafts: seq<Tok>, rows: seq<Tok>, more: seq<Tok>, a: nat, maxOut: nat)
    requires s.Shape() && s.net.Valid() && |text| > 0
    requires Emitted(s.net, text, drafts, more, a, maxOut)
    requires [text[|text| - 1]] + drafts <= rows
    requires s.Holds(text[..|text| - 1] + rows) && s.pos == |text| + a
    ensures s.Ready(text + more) <==> a < maxOut
  {
    hide Agreed, Net.Greedy, Net.Next;
    if a < maxOut {
      var all := text[..|text| - 1] + rows;
      var kept := text + drafts[..a];
      assert (text + more)[..s.pos] == kept;
      assert rows[..a + 1] == [text[|text| - 1]] + drafts[..a];
      assert kept == text[..|text| - 1] + rows[..a + 1];
      assert kept <= all;
      s.HoldsShorter(all, kept);
    }
  }

  /** A model that always says 7 agrees with k drafts of 7. */
  lemma SevenAgrees(k: nat) returns (net: Net, drafts: seq<Tok>)
    ensures net.Valid() && |drafts| == k && Agreed(net, [7], drafts) == k
  {
    var v: Vec :| true;
    var r: Row :| true;
    net := Net(0, _ => v, (_, _, _) => r, (_, _, _, _) => v, _ => 7, l => l);
    drafts := seq(k, _ => 7);
    forall i | 0 <= i < k ensures drafts[i] == net.Next([7] + drafts[..i]) {}
    AgreedUnique(net, [7], drafts, k);
  }

  /** max_out > k is exactly what makes every pass leave a usable cache: with room for k
      tokens or fewer some model agrees with more drafts than come out. */
  lemma MaxOutIsTight(k: nat, maxOut: nat)
    ensures maxOut > k <==>
            forall net: Net, text, drafts :: net.Valid() && |text| > 0 && |drafts| <= k ==>
              Agreed(net, text, drafts) < maxOut
  {
    var net, drafts := SevenAgrees(k);
    assert Agreed(net, [7], drafts) == k;
  }

  /** Where 1 2 3 was followed by sevens before. */
  function Prompt(): seq<Tok> { [1, 2, 3, 7, 7, 7, 7, 7, 1, 2, 3] }

  lemma OnlyAtStart(i: nat)
    requires Repeats(Prompt(), 3, i)
    ensures i == 0
  {
    var h := Prompt();
    assert h[i..i + 3][0] == h[i] && h[|h| - 3..][0] == h[|h| - 3];
  }

  lemma RepeatsAtStart()
    ensures Repeats(Prompt(), 3, 0)
  {
    var h := Prompt();
    assert h[0..3] == [1, 2, 3] && h[|h| - 3..] == [1, 2, 3];
  }

  lemma SevensFollow(k: nat, drafts: seq<Tok>)
    requires 1 <= k <= 5 && IsLookup(Prompt(), 3, k, drafts)
    ensures drafts == seq(k, _ => 7)
  {
    hide Repeats, Prompt;
    var h := Prompt();
    RepeatsAtStart();
    var ng: nat, i: nat :| IsNewestLongest(h, 3, ng, i)
      && |drafts| <= k && i + ng + |drafts| <= |h| && drafts == h[i + ng..i + ng + |drafts|]
      && (|drafts| == k || i + ng + |drafts| == |h|);
    assert ng == 3;
    OnlyAtStart(i);
    Sevens(k, drafts);
  }

  lemma Sevens(k: nat, drafts: seq<Tok>)
    requires 1 <= k <= 5 && |drafts| <= k && drafts == Prompt()[3..3 + |drafts|] && (|drafts| == k || 3 + |drafts| == |Prompt()|)
    ensures drafts == seq(k, _ => 7)
  {
    forall j | 0 <= j < |drafts| ensures drafts[j] == 7 { assert Prompt()[3 + j] == 7; }
  }

  /** And a pass meets it: a model that always says 7, asked after that prompt, agrees with all
      k drafts, so with room for k tokens or fewer the cache runs ahead of the text. */
  method PassOverruns(k: nat, maxOut: nat) returns (s: State, sp: Spec, out: array<Tok>, nc: int)
    requires 1 <= maxOut <= k <= 5
    ensures s.Shape() && s.net.Valid() && out.Length == 5 && nc == maxOut
    ensures Prompt() + out[..nc] == s.net.Greedy(Prompt(), nc) && !s.Ready(Prompt() + out[..nc])
  {
    hide Agreed, IsLookup, Spec.Drafted, Net.Greedy, Net.Next, State.Holds;
    s, sp := AfterPrompt(k);
    out := new Tok[5];
    ghost var drafts;
    nc, drafts := sp.Step(s, 3, out, maxOut, false, 0, Prompt());
    AllSevens(s.net, sp, drafts);
  }

  ghost predicate SaysSeven(net: Net) {
    net.Valid() && net.layers == 0 && forall toks: seq<Tok> :: |toks| > 0 ==> net.Next(toks) == 7
  }

  lemma AllSevens(net: Net, sp: Spec, drafts: seq<Tok>)
    requires SaysSeven(net) && sp.Valid() && !sp.junk && sp.hist.Length == 64 && sp.Drafted(Prompt(), 10, 64, drafts)
    ensures Agreed(net, Prompt(), drafts) == sp.k
  {
    hide IsLookup, Net.Next;
    assert Prompt()[..11] == Prompt();
    var found: seq<Tok> :| |found| <= sp.k && IsLookup(Prompt(), 3, sp.k, found)
      && drafts == if 10 + 1 + |found| + 1 > 64 then [] else found;
    SevensFollow(sp.k, found);
    AgreedUnique(net, Prompt(), drafts, sp.k);
  }

  /** The prompt read, but for its last token, by that model. */
  method AfterPrompt(k: nat) returns (s: State, sp: Spec)
    requires 1 <= k <= 5
    ensures s.Shape() && SaysSeven(s.net) && s.Ready(Prompt()) && s.pos == 10 && s.nCtx == 64
    ensures sp.Valid() && sp.k == k && !sp.junk && !sp.off && sp.hist.Length == 64 && sp.Heard(Prompt()[..10])
    ensures fresh(s) && fresh(s.cache) && fresh(sp) && fresh(sp.hist)
  {
    var v: Vec := *;
    var r: Row := *;
    s := new State(Net(0, _ => v, (_, _, _) => r, (_, _, _, _) => v, _ => 7, l => l), 64);
    sp := new Spec(k, 8, 64, false);
    var text := Prompt();
    for i := 0 to 10
      invariant s.pos == i && s.Shape() && s.Holds(text[..i])
      invariant sp.Valid() && !sp.off && sp.Heard(text[..i])
      invariant sp.hist.Length == 64 && fresh(sp.hist) && fresh(s.cache)
    {
      var _ := s.Forward(text[i], i, text[..i]);
      sp.Push(text[i]);
      assert text[..i] + [text[i]] == text[..i + 1];
    }
  }
}
