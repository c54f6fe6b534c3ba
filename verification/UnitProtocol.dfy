/** A unit's protocol as its caller relies on it: a group in flight, its answers held open. */
module UnitProtocol {
  /** How many ops are in flight, and how many answers the last wait left. */
  datatype Status = Status(inflight: bool, held: bool, flying: nat, answers: nat)
  {
    /** Op i's answer can be read where the hardware left it. */
    predicate Readable(i: nat) { held && i < answers }
  }

  /** A submit of n ops: whatever was in flight or held is over, and an empty group is refused. */
  predicate Submits(s: Status, t: Status, n: nat, ok: bool) {
    !t.held && ok == t.inflight && (ok ==> n > 0 && t.flying == n)
  }

  /** A wait: nothing is in flight, and if it succeeds the answers are the group's, held
      exactly if they are lent. */
  predicate Waits(s: Status, t: Status, lend: bool, ok: bool) {
    !t.inflight && (ok ==> s.inflight && t.answers == s.flying && t.held == lend)
  }

  predicate Releases(s: Status, t: Status) { !t.held && t.inflight == s.inflight }
}

/** The unit itself keeps that protocol, for a group whose answers are all lent or all copied. */
module UnitKeepsProtocol {
  import opened Fp16Plan
  import opened Fp16Unit
  import opened UnitProtocol

  ghost function Now(u: Unit): Status
    reads u
  {
    Status(u.inflight, u.held, |u.flying|, |u.last|)
  }

  method Submit(u: Unit, ops: seq<Op>, left: seq<int>, at: Addresses, cache: bool, taken: bool) returns (ok: bool)
    requires u.Valid() && (u.inflight ==> |left| == u.ob.Length)
    modifies u, u.ob, u.coef, u.reg
    ensures u.Valid() && Submits(old(Now(u)), Now(u), |ops|, ok)
  {
    hide Unit.Valid, Unit.Ready, Good;
    var p, skipped;
    ok, p, skipped := u.GroupSubmit(ops, left, at, cache, taken);
  }

  method Wait(u: Unit, after: seq<int>, ghost wrote: seq<set<nat>>, lend: bool) returns (ok: bool)
    requires u.Valid() && forall i :: 0 <= i < |u.lend| ==> u.lend[i] == lend
    requires u.inflight ==> |after| == u.ob.Length && Wrote(u.ob[..], after, u.flying, wrote)
    modifies u`inflight, u`held, u`last, u.ob
    ensures u.Valid() && Waits(old(Now(u)), Now(u), lend, ok)
  {
    hide Wrote, OpRead, Exact, Unit.Shaped, Unit.StreamsOk, Unit.CoefsOk, Unit.Surfaced;
    assert u.inflight ==> |u.lend| == |u.flying| > 0;
    var unwritten, answers;
    ok, unwritten, answers := u.GroupWait(after, wrote);
    if ok { assert u.lend[0] == lend && unwritten[0] < u.last[0].m; }
  }

  method PoisonAndRelease(u: Unit)
    requires u.Valid()
    modifies u`held, u`prepoisoned, u`moved, u`scribbled, u.ob
    ensures u.Valid() && Releases(old(Now(u)), Now(u))
  {
    hide Unit.Valid;
    u.PoisonAndRelease();
  }

  method OutW(u: Unit, i: nat) returns (at: Option<nat>)
    requires u.Valid()
    ensures at.Some? <==> Now(u).Readable(i)
  {
    hide Unit.Valid;
    at := u.OutW(i);
  }
}
