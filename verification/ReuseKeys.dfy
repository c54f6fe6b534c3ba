/**
 What each device's input buffer holds, so that a call whose input is the previous call's
 can skip the pack: the keys, the leader that drops them, and the followers that believe
 them, over whole runs.
 */
module ReuseKeys {
  import opened IndexArith
  import opened RowChunks

  type Contents(==, 0, !new)
  type Bytes(==, 0, !new)

  /** What the packed bytes depend on besides the contents: rows, K, zero point, and the
      factor the tensor puts on its activation. */
  datatype Shape = Shape(m: nat, k: nat, zp: nat, ksh: nat)

  /** The bytes a fresh pack writes for one K slice. */
  datatype Packer = Packer(pack: (Contents, Shape, nat) -> Bytes)

  datatype Key = Key(x: nat, shape: Shape, slices: set<nat>, valid: bool)

  /** reuse_key_hit: the buffer, the shape, and every slice about to be read. */
  predicate Hit(key: Key, x: nat, shape: Shape, need: set<nat>) {
    key.valid && key.x == x && key.shape == shape && need <= key.slices
  }

  /** What a call asks: its input buffer and what is in it, and on each device the slices its
      tensor was dealt there. */
  datatype Ask = Ask(x: nat, c: Contents, shape: Shape, kslices: nat, need: seq<set<nat>>)

  /** How far a call gets: refused before it touches anything, stopped at a device whose
      stream came back empty or whose submit failed, or through. */
  datatype Fate = Refused | EmitFails(d: nat) | SubmitFails(d: nat) | Runs
  {
    predicate Completes(ndev: nat) { Runs? || ((EmitFails? || SubmitFails?) && d >= ndev) }
  }

  /** What the device reads for the slices it needs is what a fresh pack would have written. */
  ghost predicate Fresh(p: Packer, held: map<nat, Bytes>, c: Contents, shape: Shape, need: set<nat>) {
    forall ki :: ki in need ==> ki in held && held[ki] == p.pack(c, shape, ki)
  }

  /** A key that is valid tells what a pack of this input wrote. */
  ghost predicate Truthful(p: Packer, key: Key, held: map<nat, Bytes>, c: Contents) {
    key.valid ==> Fresh(p, held, c, key.shape, key.slices)
  }

  /** Every device's key and packed bytes, and how large the buffers are. */
  datatype Image = Image(keys: seq<Key>, bins: seq<map<nat, Bytes>>, bm: nat, bnks: nat)
  {
    predicate Valid() { |keys| == |bins| }

    /** Large enough for the call, or replaced by new buffers that hold nothing. */
    function Grown(m: nat, nks: nat): (g: Image)
      requires Valid()
      ensures g.Valid() && |g.keys| == |keys|
    {
      if bm >= m && bnks >= nks then this
      else Image(Dropped(keys), seq(|bins|, _ => map[]), Max(m, bm), Max(nks, bnks))
    }

    /** A follower's device skips the pack: there is room, and its key hits. */
    predicate Reuses(a: Ask, d: nat)
      requires d < |a.need| && d < |keys|
    {
      bm >= a.shape.m && bnks >= a.kslices && Hit(keys[d], a.x, a.shape, a.need[d])
    }

    /** Before the devices' parts of a call: the buffers, and a leader's drop. */
    function Ready(same: bool, a: Ask): (r: Image)
      requires Valid()
      ensures r.Valid() && |r.keys| == |keys|
    {
      var g := Grown(a.shape.m, a.kslices);
      if same then g else g.(keys := Dropped(g.keys))
    }

    /** What a call that completes leaves. */
    function Completed(p: Packer, same: bool, a: Ask): (r: Image)
      requires Valid() && |a.need| == |keys|
      ensures r.Valid() && |r.keys| == |keys|
    {
      var g := Ready(same, a);
      Image(seq(|keys|, d requires 0 <= d < |keys| => KeyAfter(g.keys[d], same, a, a.need[d])),
            seq(|keys|, d requires 0 <= d < |keys| => BinAfter(p, g.keys[d], g.bins[d], same, a, a.need[d])), g.bm, g.bnks)
    }
  }

  function Dropped(keys: seq<Key>): (r: seq<Key>)
    ensures |r| == |keys| && forall d :: 0 <= d < |r| ==> r[d] == keys[d].(valid := false)
  {
    seq(|keys|, d requires 0 <= d < |keys| => keys[d].(valid := false))
  }

  /** Each slice the device was dealt, written once. */
  function Pack(p: Packer, held: map<nat, Bytes>, c: Contents, shape: Shape, need: set<nat>): (r: map<nat, Bytes>)
    ensures Fresh(p, r, c, shape, need)
    ensures forall ki :: ki !in need ==> (ki in r <==> ki in held) && (ki in r ==> r[ki] == held[ki])
  {
    held + map ki | ki in need :: p.pack(c, shape, ki)
  }

  /** A device's buffer and key after its part of a call. */
  function BinAfter(p: Packer, key: Key, held: map<nat, Bytes>, same: bool, a: Ask, need: set<nat>): map<nat, Bytes> {
    if same && Hit(key, a.x, a.shape, need) then held else Pack(p, held, a.c, a.shape, need)
  }

  function KeyAfter(key: Key, same: bool, a: Ask, need: set<nat>): Key {
    if same && Hit(key, a.x, a.shape, need) then key
    else if need != {} then Key(a.x, a.shape, need, true)
    else key.(valid := false)
  }

  ghost predicate AllFresh(p: Packer, held: seq<map<nat, Bytes>>, a: Ask) {
    |held| == |a.need| && forall d :: 0 <= d < |held| ==> Fresh(p, held[d], a.c, a.shape, a.need[d])
  }

  // ---- which leader's input each device holds ----

  /** Each device's key was last written for the input of leader since[d], and if it is valid
      its slices are what a pack of that input wrote. */
  ghost predicate Told(p: Packer, st: Image, inputs: seq<Contents>, since: seq<nat>) {
    && |st.keys| == |st.bins| == |since| && inputs != []
    && forall d :: 0 <= d < |since| ==> since[d] < |inputs| && Truthful(p, st.keys[d], st.bins[d], inputs[since[d]])
  }

  /** After a call that completes: the devices that pack do it for the leader now in force. */
  function SinceAfter(st: Image, since: seq<nat>, lead: nat, same: bool, a: Ask): seq<nat>
    requires |st.keys| == |since| == |a.need|
  {
    seq(|since|, d requires 0 <= d < |since| =>
      if (same && st.Reuses(a, d)) || a.need[d] == {} then since[d] else lead)
  }

  /** No leader, refused or not, has come since the key of a device that hits was written. */
  predicate AllCurrent(st: Image, since: seq<nat>, lead: nat, a: Ask)
    requires |st.keys| == |since| == |a.need|
  {
    forall d :: 0 <= d < |since| && st.Reuses(a, d) && a.need[d] != {} ==> since[d] == lead
  }

  /** The leaders' inputs pack to different bytes in this shape. */
  ghost predicate Telling(p: Packer, inputs: seq<Contents>, shape: Shape) {
    forall i, j, ki: nat :: 0 <= i < j < |inputs| ==> p.pack(inputs[i], shape, ki) != p.pack(inputs[j], shape, ki)
  }

  lemma TellingPair(p: Packer, x: Contents, y: Contents, shape: Shape)
    ensures Telling(p, [x, y], shape) <==> forall ki: nat :: p.pack(x, shape, ki) != p.pack(y, shape, ki)
  {
    assert [x, y][0] == x && [x, y][1] == y;
  }

  lemma MoreInputs(p: Packer, st: Image, inputs: seq<Contents>, since: seq<nat>, c: Contents)
    requires Told(p, st, inputs, since)
    ensures Told(p, st, inputs + [c], since)
  {
  }

  lemma OneMoved(p: Packer, before: Image, after: Image, inputs: seq<Contents>, since: seq<nat>, d: nat, lead: nat)
    requires Told(p, before, inputs, since) && d < |since| == |before.keys| && (lead == since[d] || lead < |inputs|)
    requires |after.keys| == |after.bins| == |before.keys| == |before.bins|
    requires after.keys == before.keys[d := after.keys[d]] && after.bins == before.bins[d := after.bins[d]]
    requires Truthful(p, after.keys[d], after.bins[d], inputs[lead])
    ensures Told(p, after, inputs, since[d := lead])
  {
  }

  class Npu {
    const p: Packer
    var keys: array<Key>
    var bins: array<map<nat, Bytes>>
    var bm: nat
    var bnks: nat
    ghost var prevX: nat              // the previous call's buffer, as its caller saw it
    ghost var inputs: seq<Contents>   // what each leader brought, refused or not
    ghost var since: seq<nat>         // the leader in force when each device's key was last written

    ghost predicate Valid()
      reads this, keys, bins
    {
      && keys.Length == bins.Length == |since| && keys as object != bins && inputs != []
      && Told(p, Now(), inputs, since)
    }

    /** The leader in force. */
    ghost function Lead(): nat
      reads this`inputs
      requires inputs != []
    {
      |inputs| - 1
    }

    /** No leader was refused since one last dropped the keys: every key that is valid was
        written for the leader in force. */
    ghost predicate Settled()
      reads this`inputs, this`since, this`keys, keys
      requires inputs != [] && |since| == keys.Length
    {
      forall d :: 0 <= d < |since| && keys[d].valid ==> since[d] == Lead()
    }

    function Now(): (r: Image)
      reads this`keys, this`bins, this`bm, this`bnks, keys, bins
    {
      Image(keys[..], bins[..], bm, bnks)
    }

    constructor (p: Packer, ndev: nat, x: nat, c: Contents)
      ensures Valid() && Settled() && fresh(keys) && fresh(bins) && keys.Length == ndev && this.p == p
      ensures prevX == x && inputs == [c] && bm == 0 && bnks == 0
      ensures forall d :: 0 <= d < ndev ==> !keys[d].valid
    {
      this.p := p;
      keys := new Key[ndev](_ => Key(0, Shape(0, 0, 0, 0), {}, false));
      bins := new map<nat, Bytes>[ndev](_ => map[]);
      bm, bnks, prevX, inputs, since := 0, 0, x, [c], seq(ndev, _ => 0);
    }

    /** reuse_keys_drop. */
    method Drop()
      modifies keys
      ensures keys[..] == Dropped(old(keys[..]))
    {
      for d := 0 to keys.Length
        invariant forall e :: 0 <= e < keys.Length ==>
                    keys[e] == if e < d then old(keys[e]).(valid := false) else old(keys[e])
      {
        keys[d] := keys[d].(valid := false);
      }
    }

    /** batch_bufs: buffers that grow are new ones, which hold nothing. */
    method Buffers(m: nat, nks: nat)
      requires Valid()
      modifies this`bm, this`bnks, keys, bins
      ensures Valid() && bm >= m && bnks >= nks && Now() == old(Now()).Grown(m, nks)
    {
      if bm >= m && bnks >= nks {
        return;
      }
      Drop();
      bm, bnks := Max(m, bm), Max(nks, bnks);
      forall d | 0 <= d < bins.Length { bins[d] := map[]; }
    }

    /** What is left of a device's key, buffer and leader. */
    ghost predicate After(key': Key, held': map<nat, Bytes>, from': nat, key: Key, held: map<nat, Bytes>, from: nat,
                          same: bool, a: Ask, need: set<nat>, lead: nat) {
      && key' == KeyAfter(key, same, a, need) && held' == BinAfter(p, key, held, same, a, need)
      && from' == if (same && Hit(key, a.x, a.shape, need)) || need == {} then from else lead
    }

    /** One device's part of a call: hit, or pack the slices dealt to it and say so. */
    method Device(d: nat, same: bool, a: Ask, emits: bool) returns (ok: bool)
      requires Valid() && d < keys.Length && d < |a.need| && a.c == inputs[Lead()]
      modifies this`since, keys, bins
      ensures Valid() && ok == emits && |since| == old(|since|)
      ensures ok ==> After(keys[d], bins[d], since[d], old(keys[d]), old(bins[d]), old(since[d]), same, a, a.need[d], Lead())
      ensures old(keys[d].valid ==> since[d] == Lead()) ==> keys[d].valid ==> since[d] == Lead()
      ensures forall e :: 0 <= e < keys.Length && e != d ==>
                keys[e] == old(keys[e]) && bins[e] == old(bins[e]) && since[e] == old(since[e])
    {
      hide Told, Pack;
      ghost var st, from := Now(), since;
      var need := a.need[d];
      var reuse := same && Hit(keys[d], a.x, a.shape, need);
      if !reuse {
        keys[d] := keys[d].(valid := false);
        bins[d] := Pack(p, bins[d], a.c, a.shape, need);
      }
      if !emits {
        assert since == from[d := since[d]];
        if reuse { assert Now() == st; } else { OneMoved(p, st, Now(), inputs, from, d, since[d]); }
        return false;
      }
      if !reuse && need != {} {
        keys[d] := Key(a.x, a.shape, need, true);
        since := since[d := Lead()];
      }
      assert since == from[d := since[d]];
      if reuse { assert Now() == st; } else { OneMoved(p, st, Now(), inputs, from, d, since[d]); }
      ok := true;
    }

    /** One matmul. `same` is the caller's word that its input is the previous call's, buffer
        and contents; without it the call is a leader. After a leader every device reads what a
        fresh pack would have written. After a follower they do if no leader, refused or not,
        has come since the key of each that hits was written, and, for inputs that pack to
        different bytes, only then. */
    method Call(same: bool, a: Ask, fate: Fate, flip: bool) returns (ok: bool, ghost held: seq<map<nat, Bytes>>)
      requires Valid() && |a.need| == keys.Length && (same ==> a.x == prevX && a.c == inputs[Lead()])
      modifies this`bm, this`bnks, this`prevX, this`inputs, this`since, keys, bins
      ensures Valid() && prevX == a.x && ok == fate.Completes(keys.Length)
      ensures inputs == if same then old(inputs) else old(inputs) + [a.c]
      ensures (same && old(Settled())) || (!same && fate != Refused) ==> Settled()
      ensures fate == Refused ==> Now() == old(Now()) && since == old(since)
      ensures ok ==> held == bins[..] && Now() == old(Now()).Completed(p, same, a)
      ensures ok ==> since == SinceAfter(old(Now()), old(since), Lead(), same, a)
      ensures ok && same ==> forall d :: 0 <= d < keys.Length ==>
                if old(keys[d].valid && keys[d].x == a.x && keys[d].shape == a.shape && a.need[d] <= keys[d].slices
                       && bm >= a.shape.m && bnks >= a.kslices)
                then held[d] == old(bins[d]) && keys[d] == old(keys[d])
                else Fresh(p, held[d], a.c, a.shape, a.need[d])
      ensures ok ==> forall d :: 0 <= d < keys.Length && a.need[d] != {} ==>
                keys[d].valid && keys[d].x == a.x && keys[d].shape == a.shape && a.need[d] <= keys[d].slices
      ensures ok && (!same || old(Settled() || AllCurrent(Now(), since, Lead(), a))) ==> AllFresh(p, held, a)
      ensures ok && same && Telling(p, inputs, a.shape) && AllFresh(p, held, a) ==> old(AllCurrent(Now(), since, Lead(), a))
    {
      hide Told, After, AllFresh, AllCurrent, Telling, Image.Completed, SinceAfter, Image.Ready;
      ghost var st, from := Now(), since;
      if same && Settled() { SettledCurrent(a); }
      MoreInputs(p, st, inputs, since, a.c);
      prevX := a.x;
      held, ok := [], false;
      if !same { inputs := inputs + [a.c]; }
      if fate == Refused {
        return;
      }
      Begin(same, a);
      ok := Devices(same, a, fate, flip);
      held := bins[..];
      if ok {
        CompletedIs(st, Now(), from, same, a);
        CompletedReads(p, st, same, a);
        if same { CurrentExactly(p, st, inputs, from, a); } else { LeaderFresh(p, st, a); }
      }
    }

    /** The buffers, and a leader's drop. */
    method Begin(same: bool, a: Ask)
      requires Valid() && |a.need| == keys.Length
      modifies this`bm, this`bnks, keys, bins
      ensures Valid() && Now() == old(Now()).Ready(same, a)
      ensures !same || old(Settled()) ==> Settled()
    {
      hide Fresh;
      Buffers(a.shape.m, a.kslices);
      if !same { Drop(); }
    }

    lemma CompletedIs(st: Image, now: Image, from: seq<nat>, same: bool, a: Ask)
      requires inputs != [] && st.Valid() && now.Valid() && |a.need| == |st.keys| == |now.keys| == |from| == |since|
      requires now.bm == st.Ready(same, a).bm && now.bnks == st.Ready(same, a).bnks
      requires forall d :: 0 <= d < |from| ==>
                 After(now.keys[d], now.bins[d], since[d], st.Ready(same, a).keys[d], st.Ready(same, a).bins[d], from[d],
                       same, a, a.need[d], Lead())
      ensures now == st.Completed(p, same, a) && since == SinceAfter(st, from, Lead(), same, a)
    {
      hide BinAfter;
    }

    lemma SettledCurrent(a: Ask)
      requires Valid() && Settled() && |a.need| == keys.Length
      ensures AllCurrent(Now(), since, Lead(), a)
    {
    }

    /** The devices, in either order. */
    method Devices(same: bool, a: Ask, fate: Fate, flip: bool) returns (ok: bool)
      requires Valid() && |a.need| == keys.Length && fate != Refused && a.c == inputs[Lead()]
      modifies this`since, keys, bins
      ensures Valid() && ok == fate.Completes(keys.Length) && (old(Settled()) ==> Settled())
      ensures ok ==> forall d :: 0 <= d < keys.Length ==>
                After(keys[d], bins[d], since[d], old(keys[d]), old(bins[d]), old(since[d]), same, a, a.need[d], Lead())
    {
      hide After, Told;
      var n := keys.Length;
      ghost var stop := if fate.Completes(n) then n else Order(fate.d, n, flip);
      for dd := 0 to n
        invariant Valid() && |since| == n && (old(Settled()) ==> Settled())
        invariant !fate.Completes(n) ==> dd <= stop < n && Order(stop, n, flip) == fate.d
        invariant forall e :: 0 <= e < n ==>
                    if Before(e, dd, n, flip) then
                      After(keys[e], bins[e], since[e], old(keys[e]), old(bins[e]), old(since[e]), same, a, a.need[e], Lead())
                    else keys[e] == old(keys[e]) && bins[e] == old(bins[e]) && since[e] == old(since[e])
      {
        var d := Order(dd, n, flip);
        ok := Device(d, same, a, !(fate.EmitFails? && fate.d == d));
        if !ok || (fate.SubmitFails? && fate.d == d) {
          return false;
        }
      }
      ok := true;
    }
  }

  /** Device e comes before the ddth. */
  predicate Before(e: nat, dd: nat, ndev: nat, flip: bool)
    requires e < ndev
  {
    Order(e, ndev, flip) < dd
  }

  /** The second of two devices first, where the caller asks for it. */
  function Order(dd: nat, ndev: nat, flip: bool): (d: nat)
    requires dd < ndev
    ensures d < ndev
  {
    if ndev == 2 && flip then 1 - dd else dd
  }

  /** A leader drops every key, so every device packs its input. */
  lemma LeaderFresh(p: Packer, st: Image, a: Ask)
    requires st.Valid() && |a.need| == |st.keys|
    ensures AllFresh(p, st.Completed(p, false, a).bins, a)
  {
  }

  /** A follower's device keeps what it has only if its key names this very buffer, shape and
      slices and nothing was replaced; any other holds a fresh pack, whatever ran before. And
      the key of a device that was asked for anything says what it now holds. */
  lemma CompletedReads(p: Packer, st: Image, same: bool, a: Ask)
    requires st.Valid() && |a.need| == |st.keys|
    ensures var r := st.Completed(p, same, a);
            && (same ==> forall d :: 0 <= d < |st.keys| ==>
                 var k := st.keys[d];
                 if k.valid && k.x == a.x && k.shape == a.shape && a.need[d] <= k.slices && st.bm >= a.shape.m && st.bnks >= a.kslices
                 then r.bins[d] == st.bins[d] && r.keys[d] == k
                 else Fresh(p, r.bins[d], a.c, a.shape, a.need[d]))
            && forall d :: 0 <= d < |st.keys| && a.need[d] != {} ==>
                 r.keys[d].valid && r.keys[d].x == a.x && r.keys[d].shape == a.shape && a.need[d] <= r.keys[d].slices
  {
    hide Fresh;
  }

  /** A follower's device that reuses keeps the bytes it has, any other packs. */
  lemma FollowerReads(p: Packer, st: Image, a: Ask)
    requires st.Valid() && |a.need| == |st.keys|
    ensures AllFresh(p, st.Completed(p, true, a).bins, a) <==>
            forall d :: 0 <= d < |st.keys| && st.Reuses(a, d) ==> Fresh(p, st.bins[d], a.c, a.shape, a.need[d])
  {
    hide Fresh;
    var r := st.Completed(p, true, a).bins;
    forall d | 0 <= d < |st.keys|
      ensures Fresh(p, r[d], a.c, a.shape, a.need[d]) <==>
              (st.Reuses(a, d) ==> Fresh(p, st.bins[d], a.c, a.shape, a.need[d]))
    {
    }
  }

  /** Whatever ran before, refused or not, every device reads fresh bytes after a follower if
      and, for inputs that pack to different bytes, only if no leader has come since the key of
      each that hits was written. */
  lemma CurrentExactly(p: Packer, st: Image, inputs: seq<Contents>, since: seq<nat>, a: Ask)
    requires Told(p, st, inputs, since) && |a.need| == |st.keys| && a.c == inputs[|inputs| - 1]
    ensures AllCurrent(st, since, |inputs| - 1, a) ==> AllFresh(p, st.Completed(p, true, a).bins, a)
    ensures Telling(p, inputs, a.shape) ==>
              (AllFresh(p, st.Completed(p, true, a).bins, a) <==> AllCurrent(st, since, |inputs| - 1, a))
  {
    hide AllFresh, Image.Completed, Telling;
    FollowerReads(p, st, a);
    forall d | 0 <= d < |st.keys| && st.Reuses(a, d)
      ensures (a.need[d] == {} || since[d] == |inputs| - 1) ==> Fresh(p, st.bins[d], a.c, a.shape, a.need[d])
      ensures Telling(p, inputs, a.shape) && Fresh(p, st.bins[d], a.c, a.shape, a.need[d]) ==>
                a.need[d] == {} || since[d] == |inputs| - 1
    {
      OneExactly(p, st.keys[d], st.bins[d], inputs, since[d], a, a.need[d]);
    }
  }

  lemma OneExactly(p: Packer, key: Key, held: map<nat, Bytes>, inputs: seq<Contents>, from: nat, a: Ask, need: set<nat>)
    requires from < |inputs| && Truthful(p, key, held, inputs[from]) && a.c == inputs[|inputs| - 1]
    requires Hit(key, a.x, a.shape, need)
    ensures need == {} || from == |inputs| - 1 ==> Fresh(p, held, a.c, a.shape, need)
    ensures Telling(p, inputs, a.shape) && Fresh(p, held, a.c, a.shape, need) ==> need == {} || from == |inputs| - 1
  {
    if Telling(p, inputs, a.shape) && Fresh(p, held, a.c, a.shape, need) && need != {} {
      var ki :| ki in need;
      assert p.pack(inputs[from], a.shape, ki) == held[ki] == p.pack(a.c, a.shape, ki);
    }
  }

  /** The caller's word covers only the previous call: a leader refused before it dropped the
      keys leaves them describing the input before it, and the follower that comes next, whose
      caller keeps its word, reads that. */
  method RefusedLeader(p: Packer, shape: Shape, before: Contents, now: Contents) returns (n: Npu, ghost held: seq<map<nat, Bytes>>)
    requires p.pack(before, shape, 0) != p.pack(now, shape, 0)
    ensures |held| == 1 && 0 in held[0] && held[0][0] == p.pack(before, shape, 0) != p.pack(now, shape, 0)
  {
    n := new Npu(p, 1, 0, before);
    var ok, _ := n.Call(false, Ask(7, before, shape, 1, [{0}]), Runs, false);
    assert n.keys[0] == n.Now().keys[0] == Key(7, shape, {0}, true);
    assert Fresh(p, n.Now().bins[0], before, shape, {0});
    ok, held := n.Call(false, Ask(7, now, shape, 1, [{0}]), Refused, false);
    ok, held := n.Call(true, Ask(7, now, shape, 1, [{0}]), Runs, false);
  }

  /** Brought in another buffer, the refused leader's input is packed: the follower's buffer is
      not the one the key names. */
  method OtherBuffer(p: Packer, shape: Shape, before: Contents, now: Contents) returns (n: Npu, ghost held: seq<map<nat, Bytes>>)
    ensures |held| == 1 && 0 in held[0] && held[0][0] == p.pack(now, shape, 0)
  {
    n := new Npu(p, 1, 0, before);
    var ok, _ := n.Call(false, Ask(7, before, shape, 1, [{0}]), Runs, false);
    ok, held := n.Call(false, Ask(9, now, shape, 1, [{0}]), Refused, false);
    assert n.keys[0].x == 7;
    ok, held := n.Call(true, Ask(9, now, shape, 1, [{0}]), Runs, false);
  }

  /** A follower that misses after such a leader packs the input anew, and the next one, which
      hits that pack, reads it. */
  method MissRecovers(p: Packer, shape: Shape, other: Shape, before: Contents, now: Contents)
    returns (n: Npu, ghost hits: bool, ghost held: seq<map<nat, Bytes>>)
    requires shape != other && other.m <= shape.m
    ensures hits && |held| == 1 && Fresh(p, held[0], now, other, {0})
  {
    hide Told, Truthful, Telling, Fresh, Pack;
    n := new Npu(p, 1, 0, before);
    var ok, _ := n.Call(false, Ask(7, before, shape, 1, [{0}]), Runs, false);
    assert n.keys[0] == n.Now().keys[0] == Key(7, shape, {0}, true);
    ok, held := n.Call(false, Ask(7, now, shape, 1, [{0}]), Refused, false);
    ok, held := n.Call(true, Ask(7, now, other, 1, [{0}]), Runs, false);
    assert n.keys[0] == n.Now().keys[0] == Key(7, other, {0}, true);
    hits := n.Now().Reuses(Ask(7, now, other, 1, [{0}]), 0);
    ok, held := n.Call(true, Ask(7, now, other, 1, [{0}]), Runs, false);
  }

  // ---- charsiu_pool_rowsn: several tensors on one input, a chunk of rows at a time ----

  datatype Tensor = Tensor(zp: nat, ksh: nat, kslices: nat, need: seq<set<nat>>)

  /** The input of a chunk: `at(done, c)` is what rows done up to done + c hold. */
  function AskOf(t: Tensor, x: nat, k: nat, done: nat, c: nat, at: (nat, nat) -> Contents): Ask {
    Ask(x + done * k, at(done, c), Shape(c, k, t.zp, t.ksh), t.kslices, t.need)
  }

  /** A call of the run: the first tensor of a chunk leads and the rest follow. */
  datatype Dispatch = Dispatch(same: bool, a: Ask, fate: Fate)

  /** Several tensors, an input of rows of k from x, and how each call would end. */
  datatype Work = Work(ts: seq<Tensor>, x: nat, k: nat, at: (nat, nat) -> Contents, fate: (nat, nat) -> Fate)
  {
    function DispatchOf(done: nat, c: nat, i: nat): Dispatch
      requires i < |ts|
    {
      Dispatch(i > 0, AskOf(ts[i], x, k, done, c, at), fate(done, i))
    }

    /** The first n tensors' calls on one chunk. */
    function OnChunk(done: nat, c: nat, n: nat): (ds: seq<Dispatch>)
      requires n <= |ts|
      ensures |ds| == n
    {
      seq(n, i requires 0 <= i < n => DispatchOf(done, c, i))
    }

    /** All the calls on these chunks of rows, in order: every tensor on one chunk before the
        next. */
    function OnChunks(done: nat, cs: seq<nat>): seq<Dispatch>
      decreases |cs|
    {
      if cs == [] then [] else OnChunk(done, cs[0], |ts|) + OnChunks(done + cs[0], cs[1..])
    }
  }

  /** Tensor i's call on chunk ci comes after all those on the chunks before it, leads if it is
      the first, and names the rows of that chunk: those after the rows of the chunks before. */
  lemma CallAt(w: Work, done: nat, cs: seq<nat>, ci: nat, i: nat)
    requires ci < |cs| && i < |w.ts|
    ensures 0 <= ci * |w.ts| + i < |w.OnChunks(done, cs)| == |cs| * |w.ts|
    ensures var d, first := w.OnChunks(done, cs)[ci * |w.ts| + i], done + Sum(cs[..ci]);
            && d.same == (i != 0) && d.fate == w.fate(first, i)
            && d.a.x == w.x + first * w.k && d.a.c == w.at(first, cs[ci]) && d.a.need == w.ts[i].need
            && d.a.kslices == w.ts[i].kslices && d.a.shape == Shape(cs[ci], w.k, w.ts[i].zp, w.ts[i].ksh)
  {
    hide Work.OnChunks, Sum;
    CallCount(w, done, cs);
    PlaceOf(ci, |cs|, |w.ts|, i);
    CallIs(w, done, cs, ci, i);
  }

  lemma PlaceOf(ci: nat, chunks: nat, n: nat, i: nat)
    requires ci < chunks && i < n
    ensures 0 <= ci * n + i < chunks * n
  {
    MulMono(n, ci, chunks);
    assert n * ci == ci * n && n * chunks == chunks * n;
  }

  lemma {:induction false} CallIs(w: Work, done: nat, cs: seq<nat>, ci: nat, i: nat)
    requires ci < |cs| && i < |w.ts| && 0 <= ci * |w.ts| + i < |w.OnChunks(done, cs)|
    ensures w.OnChunks(done, cs)[ci * |w.ts| + i] == w.DispatchOf(done + Sum(cs[..ci]), cs[ci], i)
    decreases |cs|
  {
    hide Work.DispatchOf;
    var n := |w.ts|;
    if ci > 0 {
      assert ci * n + i == n + ((ci - 1) * n + i);
      PlaceOf(ci - 1, |cs| - 1, n, i);
      CallIs(w, done + cs[0], cs[1..], ci - 1, i);
      assert cs[..ci][1..] == cs[1..][..ci - 1] && cs[..ci][0] == cs[0];
    } else {
      assert cs[..ci] == [] && ci * n == 0;
    }
  }

  lemma {:induction false} CallCount(w: Work, done: nat, cs: seq<nat>)
    ensures |w.OnChunks(done, cs)| == |cs| * |w.ts|
    decreases |cs|
  {
    if cs != [] {
      CallCount(w, done + cs[0], cs[1..]);
      assert |cs| * |w.ts| == |w.ts| + |cs[1..]| * |w.ts|;
    }
  }

  /** The devices after these calls, if all of them complete. */
  function AfterAll(p: Packer, st: Image, ds: seq<Dispatch>): (r: Image)
    requires st.Valid() && forall j :: 0 <= j < |ds| ==> |ds[j].a.need| == |st.keys|
    ensures r.Valid() && |r.keys| == |st.keys|
  {
    if ds == [] then st
    else
      var d := ds[|ds| - 1];
      AfterAll(p, st, ds[..|ds| - 1]).Completed(p, d.same, d.a)
  }

  /** These calls all complete, and each one's devices then hold what a fresh pack of its
      input would have written. */
  ghost predicate AllServed(p: Packer, st: Image, ds: seq<Dispatch>) {
    && st.Valid() && (forall j :: 0 <= j < |ds| ==> |ds[j].a.need| == |st.keys|)
    && forall j :: 0 <= j < |ds| ==>
         ds[j].fate.Completes(|st.keys|) && AllFresh(p, AfterAll(p, st, ds[..j + 1]).bins, ds[j].a)
  }

  lemma AfterNext(p: Packer, st: Image, ds: seq<Dispatch>, d: Dispatch)
    requires st.Valid() && |d.a.need| == |st.keys| && forall j :: 0 <= j < |ds| ==> |ds[j].a.need| == |st.keys|
    ensures AfterAll(p, st, ds + [d]) == AfterAll(p, st, ds).Completed(p, d.same, d.a)
  {
    assert (ds + [d])[..|ds|] == ds;
  }

  lemma ServedNext(p: Packer, st: Image, ds: seq<Dispatch>, d: Dispatch)
    requires AllServed(p, st, ds) && |d.a.need| == |st.keys| && d.fate.Completes(|st.keys|)
    requires AllFresh(p, AfterAll(p, st, ds).Completed(p, d.same, d.a).bins, d.a)
    ensures AllServed(p, st, ds + [d])
    ensures AfterAll(p, st, ds + [d]) == AfterAll(p, st, ds).Completed(p, d.same, d.a)
  {
    hide AllFresh, Image.Completed, AfterAll;
    var all := ds + [d];
    AfterNext(p, st, ds, d);
    assert all[..|all|] == all;
    forall j | 0 <= j < |ds| ensures AllFresh(p, AfterAll(p, st, all[..j + 1]).bins, all[j].a) {
      assert all[..j + 1] == ds[..j + 1];
    }
  }

  /** All the tensors on one chunk, up to one whose call does not complete. */
  method Chunk(n: Npu, w: Work, done: nat, c: nat, ghost st: Image, ghost before: seq<Dispatch>)
    returns (ok: bool, ghost made: seq<Dispatch>)
    requires n.Valid() && AllServed(n.p, st, before) && n.Now() == AfterAll(n.p, st, before)
    requires forall i :: 0 <= i < |w.ts| ==> |w.ts[i].need| == n.keys.Length
    modifies n, n.keys, n.bins
    ensures n.Valid() && n.keys == old(n.keys) && n.bins == old(n.bins)
    ensures AllServed(n.p, st, made) && made <= before + w.OnChunk(done, c, |w.ts|)
    ensures ok ==> made == before + w.OnChunk(done, c, |w.ts|) && n.Now() == AfterAll(n.p, st, made)
    ensures !ok ==> 0 <= |made| - |before| < |w.ts| && !w.DispatchOf(done, c, |made| - |before|).fate.Completes(n.keys.Length)
  {
    hide AllFresh, AfterAll, Image.Completed, Told;
    made := before;
    for i := 0 to |w.ts|
      invariant n.Valid() && n.keys == old(n.keys) && n.bins == old(n.bins)
      invariant AllServed(n.p, st, made) && made == before + w.OnChunk(done, c, i)
      invariant n.Now() == AfterAll(n.p, st, made)
      invariant i > 0 ==> n.Settled() && n.prevX == w.x + done * w.k && n.inputs[n.Lead()] == w.at(done, c)
    {
      ghost var d := w.DispatchOf(done, c, i);
      ghost var held;
      ok, held := n.Call(i > 0, AskOf(w.ts[i], w.x, w.k, done, c, w.at), w.fate(done, i), false);
      if !ok {
        return;
      }
      ServedNext(n.p, st, made, d);
      made := made + [d];
    }
    ok := true;
  }

  /** The next chunk's calls come first of those still to make. */
  lemma ChunkFirst(w: Work, done: nat, rem: nat, chunk: nat)
    requires rem > 0 && chunk > 0
    ensures w.OnChunks(done, Walk(rem, chunk)) ==
            w.OnChunk(done, RowsNext(rem, chunk), |w.ts|)
            + w.OnChunks(done + RowsNext(rem, chunk), Walk(rem - RowsNext(rem, chunk), chunk))
  {
    var c := RowsNext(rem, chunk);
    assert Walk(rem, chunk)[1..] == Walk(rem - c, chunk);
  }

  /** A call of a chunk, in its place among all of them. */
  lemma InPlace(all: seq<Dispatch>, before: seq<Dispatch>, here: seq<Dispatch>, later: seq<Dispatch>, made: seq<Dispatch>)
    requires all == before + (here + later) && made <= before + here
    ensures made <= all && (before + here) + later == all
    ensures forall i :: 0 <= i < |here| ==> all[|before| + i] == here[i]
  {
  }

  /** charsiu_pool_rowsn. Whatever ran before, refused or not: it makes the calls of every
      tensor on every chunk in order, up to the first that does not complete, and in each that
      does every device reads fresh bytes. On success that is all of them, and the devices are
      as the last left them. */
  method RowsN(n: Npu, w: Work, m: nat, chunk: nat) returns (ok: bool, ghost made: seq<Dispatch>)
    requires n.Valid() && 1 <= |w.ts| <= 8 && chunk > 0
    requires forall i :: 0 <= i < |w.ts| ==> |w.ts[i].need| == n.keys.Length
    modifies n, n.keys, n.bins
    ensures n.Valid() && AllServed(n.p, old(n.Now()), made)
    ensures made <= w.OnChunks(0, Walk(m, chunk))
    ensures ok ==> made == w.OnChunks(0, Walk(m, chunk)) && n.Now() == AfterAll(n.p, old(n.Now()), made)
    ensures !ok ==> |made| < |w.OnChunks(0, Walk(m, chunk))|
    ensures !ok ==> !w.OnChunks(0, Walk(m, chunk))[|made|].fate.Completes(n.keys.Length)
  {
    hide AllFresh, AfterAll, Image.Completed, Told, Walk, Work.OnChunks;
    ghost var st, all := n.Now(), w.OnChunks(0, Walk(m, chunk));
    var done := 0;
    made := [];
    Unstarted(n.p, st);
    while done < m
      invariant n.Valid() && n.keys == old(n.keys) && n.bins == old(n.bins) && done <= m
      invariant AllServed(n.p, st, made) && n.Now() == AfterAll(n.p, st, made)
      invariant all == made + w.OnChunks(done, Walk(m - done, chunk))
      decreases m - done
    {
      var c := RowsNext(m - done, chunk);
      ghost var before, here := made, w.OnChunk(done, c, |w.ts|);
      ChunkFirst(w, done, m - done, chunk);
      ok, made := Chunk(n, w, done, c, st, made);
      InPlace(all, before, here, w.OnChunks(done + c, Walk(m - done - c, chunk)), made);
      if !ok {
        assert all[|made|] == here[|made| - |before|];
        return;
      }
      done := done + c;
    }
    ok := true;
    Finished(w, m, chunk);
  }

  lemma Unstarted(p: Packer, st: Image)
    requires st.Valid()
    ensures AllServed(p, st, []) && AfterAll(p, st, []) == st
  {
  }

  lemma Finished(w: Work, m: nat, chunk: nat)
    requires chunk > 0
    ensures w.OnChunks(m, Walk(0, chunk)) == []
  {
  }
}
