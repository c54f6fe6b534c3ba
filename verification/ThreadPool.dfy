/**
 The worker pool that runs every parallel job: a generation counter, a done
 counter, one mutex with two condition variables, and an atomic cursor that hands
 out chunks.  Each critical section and each atomic operation is one step; the
 rows a worker processes are one step each, so workers interleave row by row.
 */
module ThreadPool {
  import opened IndexArith

  type Value(==, 0, !new)

  /** A job of `rows` rows: `f(r)` is what the callback stores for row `r`, whichever
      range it is handed, and `before` is what the output held when the job was armed. */
  datatype Job = Job(rows: nat, grain: nat, f: nat -> Value, before: seq<Value>)

  datatype Worker =
    | Lock                            // about to take the mutex, or woken inside the wait
    | Asleep                          // in pthread_cond_wait on cv_work
    | Armed                           // left the critical section with a new generation
    | Claiming                        // at the head of the chunk loop
    | Claimed(r0: nat)                // the fetch_add has returned r0
    | Running(r: nat, end: nat)       // inside the callback, row r is next
    | Finishing                       // about to count itself done

  datatype Master = Outside | Checking | Waiting

  datatype State = State(
    dynamic: bool, gen: nat, done: nat, next: nat, chunk: nat, job: Job,
    workers: seq<Worker>, seen: seq<nat>, master: Master,
    out: seq<Value>, hits: seq<nat>, ranges: set<(nat, nat)>)
  {
    function N(): nat { |workers| }
  }

  datatype Action =
    | Arm(job: Job)          // pool_run or matvec_again, up to its first cond_wait
    | Recheck                // the master re-evaluates its wait
    | Work(i: nat)           // worker i's next step
    | Spurious(i: nat)       // a wakeup with no broadcast behind it
    | SpuriousMaster

  /** The chunk `pool_arm` picks; 0 selects the static split. */
  function ChunkFor(dynamic: bool, rows: nat, n: nat, grain: nat): nat
    requires n > 0
  {
    var c := if !dynamic then 0 else if rows / (4 * n) > 0 then rows / (4 * n) else 1;
    if c > 0 && grain > 1 then ((c + grain - 1) / grain) * grain else c
  }

  /** The static share of worker i, as [lo, hi). */
  function ShareLo(rows: nat, n: nat, i: nat): nat
    requires n > 0
  {
    CeilDiv(rows, n) * i
  }

  function ShareHi(rows: nat, n: nat, i: nat): nat
    requires n > 0
  {
    ShareLo(rows, n, i) + Min(CeilDiv(rows, n), if ShareLo(rows, n, i) < rows then rows - ShareLo(rows, n, i) else 0)
  }

  /** The dynamic chunk is the least multiple of the grain that is a quarter of an even share,
      or one row, or more; the static split has none. */
  lemma ChunkIs(rows: nat, n: nat, grain: nat, c: nat)
    requires n > 0 && grain > 0 && c % grain == 0
    requires var least := if rows / (4 * n) > 0 then rows / (4 * n) else 1; c - grain < least <= c
    ensures ChunkFor(true, rows, n, grain) == c && ChunkFor(false, rows, n, grain) == 0
  {
    var least := if rows / (4 * n) > 0 then rows / (4 * n) else 1;
    MultipleOf(c, grain);
    var q := c / grain;
    assert least + grain - 1 == q * grain + (least + grain - 1 - c);
    DivMod(grain, q, least + grain - 1 - c);
  }

  /** Static shares are one even share each, rounded up, in the workers' order, as far as the
      rows go. */
  lemma ShareIs(rows: nat, n: nat, i: nat, per: nat)
    requires n > 0 && (per - 1) * n < rows <= per * n
    ensures ShareLo(rows, n, i) == i * per
    ensures ShareHi(rows, n, i) == if (i + 1) * per <= rows then (i + 1) * per else if i * per < rows then rows else i * per
  {
    var q := CeilDiv(rows, n);
    assert q * n >= rows && (rows > 0 ==> (q - 1) * n < rows);
    if q < per { MulLe(n, q, per - 1); } else if per < q { MulLe(n, per, q - 1); }
    assert q == per && per * i == i * per && (i + 1) * per == i * per + per;
  }

  predicate WellFormed(s: State) {
    && s.N() > 0
    && |s.seen| == s.N()
    && |s.out| == |s.hits| == |s.job.before| == s.job.rows
  }

  function Wake(ws: seq<Worker>): (r: seq<Worker>)
    ensures |r| == |ws|
    ensures forall i :: 0 <= i < |ws| ==> r[i] == if ws[i].Asleep? then Lock else ws[i]
  {
    seq(|ws|, i requires 0 <= i < |ws| => if ws[i].Asleep? then Lock else ws[i])
  }

  predicate Enabled(s: State, a: Action) {
    match a
    case Arm(job) => s.master.Outside? && |job.before| == job.rows
    case Recheck => s.master.Checking?
    case Work(i) => i < s.N() && !s.workers[i].Asleep?
    case Spurious(i) => i < s.N() && s.workers[i].Asleep?
    case SpuriousMaster => s.master.Waiting?
  }

  function ArmStep(s: State, job: Job): State
    requires WellFormed(s) && |job.before| == job.rows
  {
    s.(job := job, next := 0, chunk := ChunkFor(s.dynamic, job.rows, s.N(), job.grain), done := 0,
       gen := s.gen + 1, workers := Wake(s.workers), master := Waiting,
       out := job.before, hits := seq(job.rows, _ => 0), ranges := {})
  }

  /** The worker loop, one step of worker i. */
  function WorkStep(s: State, i: nat): State
    requires WellFormed(s) && i < s.N() && !s.workers[i].Asleep?
  {
    match s.workers[i]
    case Lock =>
      if s.seen[i] == s.gen then s.(workers := s.workers[i := Asleep])
      else s.(workers := s.workers[i := Armed], seen := s.seen[i := s.gen])
    case Armed =>
      if s.chunk > 0 then s.(workers := s.workers[i := Claiming])
      else
        var lo, hi := ShareLo(s.job.rows, s.N(), i), ShareHi(s.job.rows, s.N(), i);
        if lo < hi then s.(workers := s.workers[i := Running(lo, hi)], ranges := s.ranges + {(lo, hi)})
        else s.(workers := s.workers[i := Finishing])
    case Claiming =>
      s.(workers := s.workers[i := Claimed(s.next)], next := s.next + s.chunk)
    case Claimed(r0) =>
      if r0 < s.job.rows then
        var hi := r0 + Min(s.chunk, s.job.rows - r0);
        s.(workers := s.workers[i := Running(r0, hi)], ranges := s.ranges + {(r0, hi)})
      else s.(workers := s.workers[i := Finishing])
    case Running(r, end) =>
      if r < end && r < s.job.rows then
        s.(workers := s.workers[i := Running(r + 1, end)],
           out := s.out[r := s.job.f(r)], hits := s.hits[r := s.hits[r] + 1])
      else s.(workers := s.workers[i := if s.chunk > 0 then Claiming else Finishing])
    case Finishing =>
      s.(workers := s.workers[i := Lock], done := s.done + 1,
         master := if s.done + 1 == s.N() && s.master.Waiting? then Checking else s.master)
    case Asleep => s
  }

  function Do(s: State, a: Action): State
    requires WellFormed(s) && Enabled(s, a)
  {
    match a
    case Arm(job) => ArmStep(s, job)
    case Recheck => s.(master := if s.done < s.N() then Waiting else Outside)
    case Work(i) => WorkStep(s, i)
    case Spurious(i) => s.(workers := s.workers[i := Lock])
    case SpuriousMaster => s.(master := Checking)
  }

  /** The pool as pool_start leaves it. */
  predicate Init(s: State) {
    && WellFormed(s)
    && s.gen == s.done == s.next == s.chunk == 0
    && s.job.rows == 0 && s.ranges == {}
    && s.master.Outside?
    && forall i :: 0 <= i < s.N() ==> s.workers[i] == Lock && s.seen[i] == 0
  }

  // ---- the invariant ----

  predicate Quiet(s: State, i: nat)
    requires WellFormed(s) && i < s.N()
  {
    s.seen[i] == s.gen && (s.workers[i].Lock? || s.workers[i].Asleep?)
  }

  /** The worker has not begun the current job. */
  predicate Unstarted(s: State, i: nat)
    requires WellFormed(s) && i < s.N()
  {
    s.seen[i] != s.gen || s.workers[i].Armed?
  }

  predicate LeftLoop(s: State, i: nat)
    requires WellFormed(s) && i < s.N()
  {
    !Unstarted(s, i) && (s.workers[i].Finishing? || Quiet(s, i))
  }

  /** Row x has been handed to worker i and is not processed yet. */
  predicate Pending(s: State, i: nat, x: nat)
    requires WellFormed(s) && i < s.N()
  {
    if Unstarted(s, i) then s.chunk == 0 && ShareLo(s.job.rows, s.N(), i) <= x < ShareHi(s.job.rows, s.N(), i)
    else match s.workers[i]
         case Running(r, end) => r <= x < end
         case Claimed(r0) => r0 <= x < Min(r0 + s.chunk, s.job.rows)
         case _ => false
  }

  ghost predicate HasOwner(s: State, x: nat)
    requires WellFormed(s)
  {
    exists i :: 0 <= i < s.N() && Pending(s, i, x)
  }

  function Frontier(s: State): nat {
    if s.chunk > 0 then Min(s.next, s.job.rows) else s.job.rows
  }

  /** What holds of worker i's program counter in every reachable state. */
  predicate WorkerOk(s: State, i: nat)
    requires WellFormed(s) && i < s.N()
  {
    var w := s.workers[i];
    && s.seen[i] <= s.gen
    && (s.seen[i] != s.gen ==> w.Lock?)
    && (w.Running? ==> w.end <= s.job.rows)
    && (w.Claimed? ==> w.r0 + s.chunk <= s.next)
    && (s.chunk == 0 ==> !w.Claiming? && !w.Claimed?)
    // a worker leaves the chunk loop only once the cursor has passed the end
    && (s.chunk > 0 && LeftLoop(s, i) ==> s.next >= s.job.rows)
  }

  ghost predicate Counted(s: State)
    requires WellFormed(s)
  {
    && (s.master.Outside? ==> forall i :: 0 <= i < s.N() ==> Quiet(s, i))
    && (!s.master.Outside? ==> s.done == |QuietSet(s)|)
    && (s.master.Waiting? ==> s.done < s.N())
  }

  ghost predicate Phases(s: State)
    requires WellFormed(s)
  {
    Counted(s) && forall i :: 0 <= i < s.N() ==> WorkerOk(s, i)
  }

  function QuietSet(s: State): set<nat>
    requires WellFormed(s)
  {
    set i: nat | i < s.N() && Quiet(s, i)
  }

  ghost predicate Covers(s: State)
    requires WellFormed(s)
  {
    && (forall i, x: nat :: 0 <= i < s.N() && Pending(s, i, x) ==> x < Frontier(s))
    && (forall i, j, x: nat :: 0 <= i < j < s.N() && Pending(s, i, x) ==> !Pending(s, j, x))
    && (forall x :: 0 <= x < Frontier(s) ==>
          if HasOwner(s, x) then s.hits[x] == 0 else s.hits[x] == 1)
    && (forall x :: Frontier(s) <= x < s.job.rows ==> s.hits[x] == 0)
    && (forall x :: 0 <= x < s.job.rows ==> s.out[x] == if s.hits[x] == 0 then s.job.before[x] else s.job.f(x))
  }

  /** Every range handed out starts on the grain and is a multiple of it, except the last. */
  predicate OnGrain(s: State, lo: nat, hi: nat)
    requires s.job.grain > 0
  {
    lo % s.job.grain == 0 && (hi == s.job.rows || (hi - lo) % s.job.grain == 0)
  }

  ghost predicate Grained(s: State) {
    s.chunk > 0 && s.job.grain > 0 ==>
      && s.chunk % s.job.grain == 0
      && s.next % s.job.grain == 0
      && (forall i :: 0 <= i < s.N() && s.workers[i].Claimed? ==> s.workers[i].r0 % s.job.grain == 0)
      && (forall p <- s.ranges :: OnGrain(s, p.0, p.1))
  }

  ghost predicate Inv(s: State) {
    && WellFormed(s)
    && Phases(s)
    && (s.gen > 0 ==> Covers(s) && Grained(s))
    && (s.gen > 0 ==> (s.chunk > 0 <==> s.dynamic))
  }

  // ---- arithmetic of the splits ----

  lemma SharesDisjoint(rows: nat, n: nat, i: nat, j: nat)
    requires n > 0 && i < j
    ensures ShareHi(rows, n, i) <= ShareLo(rows, n, j)
  {
    MulMono(CeilDiv(rows, n), i, j);
  }

  lemma ShareOf(rows: nat, n: nat, x: nat) returns (i: nat)
    requires n > 0 && x < rows
    ensures i < n && ShareLo(rows, n, i) <= x < ShareHi(rows, n, i)
  {
    hide CeilDiv;
    var per := CeilDiv(rows, n);
    var q, r := Split(per, x);
    DivMod(per, q, r);
    DivBelow(x, n, per);
    assert per * q == q * per;
    i := q;
  }

  lemma ChunkOnGrain(dynamic: bool, rows: nat, n: nat, grain: nat)
    requires n > 0
    ensures var c := ChunkFor(dynamic, rows, n, grain);
            (c > 0 <==> dynamic) && (grain > 0 ==> c % grain == 0)
  {
    var c := if !dynamic then 0 else if rows / (4 * n) > 0 then rows / (4 * n) else 1;
    if c > 0 && grain > 1 {
      var k := (c + grain - 1) / grain;
      assert k >= 1;
      MulMod(k, grain);
      MulGe(grain, k);
    }
  }

  // ---- each step keeps the invariant ----

  lemma ArmKeepsPhases(s: State, job: Job)
    requires Inv(s) && s.master.Outside? && |job.before| == job.rows
    ensures Phases(ArmStep(s, job))
    ensures forall i :: 0 <= i < s.N() ==> Unstarted(ArmStep(s, job), i) && ArmStep(s, job).workers[i] == Lock
  {
    var t := ArmStep(s, job);
    forall i | 0 <= i < t.N()
      ensures Unstarted(t, i) && !Quiet(t, i) && WorkerOk(t, i) && t.workers[i] == Lock
    {
      assert Quiet(s, i) && WorkerOk(s, i);
    }
    assert QuietSet(t) == {};
  }

  lemma FreshCovers(t: State)
    requires WellFormed(t) && t.next == 0 && t.out == t.job.before
    requires forall x :: 0 <= x < t.job.rows ==> t.hits[x] == 0
    requires forall i :: 0 <= i < t.N() ==> Unstarted(t, i)
    ensures Covers(t)
  {
    forall x | 0 <= x < Frontier(t) ensures HasOwner(t, x) {
      var i := ShareOf(t.job.rows, t.N(), x);
      assert Pending(t, i, x);
    }
    forall i, j, x: nat | 0 <= i < j < t.N() && Pending(t, i, x) ensures !Pending(t, j, x) {
      SharesDisjoint(t.job.rows, t.N(), i, j);
    }
  }

  lemma ArmKeepsInv(s: State, job: Job)
    requires Inv(s) && s.master.Outside? && |job.before| == job.rows
    ensures Inv(ArmStep(s, job))
  {
    ChunkOnGrain(s.dynamic, job.rows, s.N(), job.grain);
    ArmKeepsPhases(s, job);
    FreshCovers(ArmStep(s, job));
  }

  /** Only worker i moved, the cursor did not go back, and the job stayed. */
  ghost predicate OnlyMoved(s: State, t: State, i: nat)
    requires WellFormed(s) && i < s.N()
  {
    && WellFormed(t) && t.N() == s.N()
    && t.job == s.job && t.gen == s.gen && t.chunk == s.chunk && t.next >= s.next
    && t.workers == s.workers[i := t.workers[i]] && t.seen == s.seen[i := t.seen[i]]
  }

  lemma MovedKeepsWorkers(s: State, t: State, i: nat)
    requires WellFormed(s) && i < s.N() && OnlyMoved(s, t, i)
    requires forall j :: 0 <= j < s.N() ==> WorkerOk(s, j)
    requires WorkerOk(t, i)
    ensures forall j :: 0 <= j < t.N() ==> WorkerOk(t, j)
  {
    forall j | 0 <= j < t.N() ensures WorkerOk(t, j) {
      if j != i {
        assert WorkerOk(s, j);
        assert t.workers[j] == s.workers[j] && t.seen[j] == s.seen[j];
      }
    }
  }

  lemma OthersAsQuiet(s: State, t: State, i: nat)
    requires WellFormed(s) && i < s.N() && OnlyMoved(s, t, i)
    ensures forall j :: 0 <= j < s.N() && j != i ==> (Quiet(t, j) <==> Quiet(s, j))
  {
    forall j | 0 <= j < s.N() && j != i ensures Quiet(t, j) <==> Quiet(s, j) {
      assert t.workers[j] == s.workers[j] && t.seen[j] == s.seen[j];
    }
  }

  lemma MovedKeepsCounted(s: State, t: State, i: nat)
    requires WellFormed(s) && i < s.N() && OnlyMoved(s, t, i) && Counted(s)
    requires Quiet(s, i) ==> Quiet(t, i)
    requires t.done == s.done + (if Quiet(t, i) && !Quiet(s, i) then 1 else 0)
    requires t.master == if s.master.Waiting? && t.done == s.N() then Checking else s.master
    ensures Counted(t)
  {
    hide Quiet;
    OthersAsQuiet(s, t, i);
    assert QuietSet(t) == if Quiet(t, i) then QuietSet(s) + {i} else QuietSet(s);
    FullSet(QuietSet(t), t.N());
  }

  lemma WorkKeepsPhases(s: State, i: nat)
    requires Inv(s) && i < s.N() && !s.workers[i].Asleep?
    ensures OnlyMoved(s, WorkStep(s, i), i)
    ensures Phases(WorkStep(s, i))
  {
    hide WorkStep, WorkerOk, OnlyMoved, Quiet, QuietSet, ShareLo, ShareHi;
    var t := WorkStep(s, i);
    assert WorkerOk(s, i);
    StepMoves(s, i);
    StepCounts(s, i);
    MovedKeepsWorkers(s, t, i);
    MovedKeepsCounted(s, t, i);
  }

  lemma StepMoves(s: State, i: nat)
    requires WellFormed(s) && i < s.N() && WorkerOk(s, i) && !s.workers[i].Asleep?
    ensures OnlyMoved(s, WorkStep(s, i), i) && WorkerOk(WorkStep(s, i), i)
  {
    hide ShareLo;
  }

  lemma StepCounts(s: State, i: nat)
    requires WellFormed(s) && i < s.N() && WorkerOk(s, i) && !s.workers[i].Asleep?
    ensures var t := WorkStep(s, i);
            && WellFormed(t) && t.N() == s.N() && (Quiet(s, i) ==> Quiet(t, i))
            && t.done == s.done + (if Quiet(t, i) && !Quiet(s, i) then 1 else 0)
            && t.master == if s.master.Waiting? && t.done == s.N() && t.done != s.done then Checking else s.master
  {
    hide ShareLo, ShareHi;
  }

  /** Worker i's step hands out, keeps or processes rows; nobody else's change. */
  lemma MovedKeepsPending(s: State, t: State, i: nat)
    requires WellFormed(s) && i < s.N() && OnlyMoved(s, t, i)
    ensures forall j, x: nat :: 0 <= j < s.N() && j != i ==> (Pending(t, j, x) <==> Pending(s, j, x))
  {
    forall j, x: nat | 0 <= j < s.N() && j != i ensures Pending(t, j, x) <==> Pending(s, j, x) {
      assert t.workers[j] == s.workers[j] && t.seen[j] == s.seen[j];
    }
  }

  lemma KeptKeepsCovers(s: State, t: State, i: nat)
    requires WellFormed(s) && i < s.N() && OnlyMoved(s, t, i) && Covers(s)
    requires t.next == s.next && t.out == s.out && t.hits == s.hits
    requires forall x: nat :: Pending(t, i, x) <==> Pending(s, i, x)
    ensures Covers(t)
  {
    MovedKeepsPending(s, t, i);
    forall x: nat ensures HasOwner(t, x) <==> HasOwner(s, x) { SameOwner(s, t, i, x); }
  }

  lemma ClaimKeepsCovers(s: State, i: nat)
    requires Inv(s) && i < s.N() && s.workers[i].Claiming? && s.gen > 0
    ensures Covers(WorkStep(s, i))
  {
    var t := WorkStep(s, i);
    assert WorkerOk(s, i);
    MovedKeepsPending(s, t, i);
    forall x: nat ensures Pending(t, i, x) <==> s.next <= x < Frontier(t) {}
    forall x: nat ensures !Pending(s, i, x) {}
    forall x: nat | x < Frontier(s) ensures HasOwner(t, x) <==> HasOwner(s, x) { SameOwner(s, t, i, x); }
    forall x: nat | Frontier(s) <= x < Frontier(t) ensures HasOwner(t, x) { assert Pending(t, i, x); }
  }

  lemma ProcessKeepsCovers(s: State, i: nat)
    requires Inv(s) && i < s.N() && s.workers[i].Running? && s.gen > 0
    requires s.workers[i].r < s.workers[i].end
    ensures Covers(WorkStep(s, i))
  {
    var t := WorkStep(s, i);
    var r := s.workers[i].r;
    assert WorkerOk(s, i);
    MovedKeepsPending(s, t, i);
    forall x: nat ensures Pending(t, i, x) <==> Pending(s, i, x) && x != r {}
    assert Pending(s, i, r);
    assert HasOwner(s, r);
    forall x: nat | x != r ensures HasOwner(t, x) <==> HasOwner(s, x) { SameOwner(s, t, i, x); }
    assert !HasOwner(t, r);
  }

  lemma WorkKeepsCovers(s: State, i: nat)
    requires Inv(s) && i < s.N() && !s.workers[i].Asleep? && s.gen > 0
    ensures Covers(WorkStep(s, i))
  {
    assert WorkerOk(s, i);
    if s.workers[i].Claiming? {
      ClaimKeepsCovers(s, i);
    } else if s.workers[i].Running? && s.workers[i].r < s.workers[i].end {
      ProcessKeepsCovers(s, i);
    } else {
      KeptKeepsCovers(s, WorkStep(s, i), i);
    }
  }

  lemma SameOwner(s: State, t: State, i: nat, x: nat)
    requires WellFormed(s) && WellFormed(t) && s.N() == t.N() && i < s.N()
    requires forall j :: 0 <= j < s.N() && j != i ==> (Pending(t, j, x) <==> Pending(s, j, x))
    requires Pending(t, i, x) <==> Pending(s, i, x)
    ensures HasOwner(t, x) <==> HasOwner(s, x)
  {
    if HasOwner(s, x) {
      var j :| 0 <= j < s.N() && Pending(s, j, x);
      assert Pending(t, j, x);
    }
    if HasOwner(t, x) {
      var j :| 0 <= j < s.N() && Pending(t, j, x);
      assert Pending(s, j, x);
    }
  }

  lemma WorkKeepsGrained(s: State, i: nat)
    requires Inv(s) && i < s.N() && !s.workers[i].Asleep? && s.gen > 0
    ensures Grained(WorkStep(s, i))
  {
    if s.chunk > 0 && s.job.grain > 0 {
      var t := WorkStep(s, i);
      if s.workers[i].Claiming? {
        ModSum(s.next, s.chunk, s.job.grain);
      }
      forall p <- t.ranges ensures OnGrain(t, p.0, p.1) {
        if p in s.ranges { assert OnGrain(s, p.0, p.1); }
      }
    }
  }

  /** Falling asleep, waking and re-checking move no work. */
  lemma WaitKeepsInv(s: State, t: State)
    requires Inv(s) && |t.workers| == s.N()
    requires t == s.(master := t.master, workers := t.workers)
    requires forall i :: 0 <= i < s.N() ==> t.workers[i] == s.workers[i] || (s.workers[i].Asleep? && t.workers[i].Lock?)
    requires t.master.Waiting? ==> s.done < s.N()
    requires t.master.Outside? ==> s.master.Outside? || (s.master.Checking? && s.done >= s.N())
    requires s.master.Outside? ==> t.master.Outside?
    ensures Inv(t)
  {
    FullSet(QuietSet(s), s.N());
    forall i | 0 <= i < s.N() ensures (Quiet(t, i) <==> Quiet(s, i)) && WorkerOk(t, i) { assert WorkerOk(s, i); }
    assert QuietSet(t) == QuietSet(s);
    if t.master.Outside? {
      forall i | 0 <= i < s.N() ensures Quiet(t, i) { assert s.master.Outside? || i in QuietSet(s); }
    }
    if s.gen > 0 {
      forall i, x: nat | 0 <= i < s.N() ensures Pending(t, i, x) <==> Pending(s, i, x) {}
      forall x: nat ensures HasOwner(t, x) <==> HasOwner(s, x) { SameOwner(s, t, 0, x); }
      assert Covers(t);
      if s.chunk > 0 && s.job.grain > 0 {
        forall p <- t.ranges ensures OnGrain(t, p.0, p.1) { assert OnGrain(s, p.0, p.1); }
      }
    }
  }

  lemma StepKeepsInv(s: State, a: Action)
    requires Inv(s) && Enabled(s, a)
    ensures Inv(Do(s, a))
  {
    match a {
      case Arm(job) => ArmKeepsInv(s, job);
      case Work(i) =>
        WorkKeepsPhases(s, i);
        if s.gen > 0 {
          WorkKeepsCovers(s, i);
          WorkKeepsGrained(s, i);
        }
      case Recheck => WaitKeepsInv(s, Do(s, a));
      case Spurious(i) => WaitKeepsInv(s, Do(s, a));
      case SpuriousMaster => WaitKeepsInv(s, Do(s, a));
    }
  }

  // ---- whole runs ----

  /** `acts` is a schedule from s to t: any interleaving, any number of jobs. */
  ghost predicate Reaches(s: State, acts: seq<Action>, t: State)
    decreases |acts|
  {
    if acts == [] then s == t
    else WellFormed(s) && Enabled(s, acts[0]) && Reaches(Do(s, acts[0]), acts[1..], t)
  }

  lemma {:induction false} RunsKeepInv(s: State, acts: seq<Action>, t: State)
    requires Inv(s) && Reaches(s, acts, t)
    ensures Inv(t)
    decreases |acts|
  {
    if acts != [] {
      StepKeepsInv(s, acts[0]);
      RunsKeepInv(Do(s, acts[0]), acts[1..], t);
    }
  }

  function Serial(job: Job): seq<Value> {
    seq(job.rows, r requires 0 <= r < job.rows => job.f(r))
  }

  /** When pool_run returns, every row has been processed exactly once and the output
      is what one call over the whole range would have written. */
  lemma ReturnIsSerial(s0: State, acts: seq<Action>, s: State)
    requires Init(s0) && Reaches(s0, acts, s)
    requires WellFormed(s) && s.gen > 0
    requires s.master.Checking? && Do(s, Recheck).master.Outside?
    ensures forall r :: 0 <= r < s.job.rows ==> s.hits[r] == 1
    ensures s.out == Serial(s.job)
  {
    RunsKeepInv(s0, acts, s);
    FullSet(QuietSet(s), s.N());
    forall i | 0 <= i < s.N() ensures Quiet(s, i) && WorkerOk(s, i) { assert i in QuietSet(s); }
    forall i, x: nat | 0 <= i < s.N() ensures !Pending(s, i, x) { assert Quiet(s, i); }
    assert Quiet(s, 0);
    assert s.chunk > 0 ==> LeftLoop(s, 0) && s.next >= s.job.rows;
    forall x | 0 <= x < s.job.rows ensures s.hits[x] == 1 { assert !HasOwner(s, x); }
  }

  /** Outside the mutex only Armed, Claiming, Claimed and Running read the job's
      fields; none of them is live when the master rewrites the fields. */
  lemma NoReaderWhileArming(s0: State, acts: seq<Action>, s: State, job: Job, i: nat)
    requires Init(s0) && Reaches(s0, acts, s)
    requires WellFormed(s) && Enabled(s, Arm(job)) && i < s.N()
    ensures s.workers[i].Lock? || s.workers[i].Asleep?
    ensures s.seen[i] == s.gen
  {
    RunsKeepInv(s0, acts, s);
    assert Quiet(s, i);
  }

  /** In the dynamic split every range a callback sees starts on the grain and, but
      for the last, is a whole number of grains. */
  lemma DynamicRangesOnGrain(s0: State, acts: seq<Action>, s: State)
    requires Init(s0) && Reaches(s0, acts, s)
    requires s.gen > 0 && s.dynamic && s.job.grain > 0
    ensures forall p <- s.ranges :: OnGrain(s, p.0, p.1)
  {
    RunsKeepInv(s0, acts, s);
  }

  /** Worker i's static share, if it has one, is on the grain. */
  predicate ShareOnGrain(rows: nat, n: nat, grain: nat, i: nat)
    requires n > 0 && grain > 0
  {
    var lo, hi := ShareLo(rows, n, i), ShareHi(rows, n, i);
    lo < hi ==> lo % grain == 0 && (hi == rows || (hi - lo) % grain == 0)
  }

  /** The static split keeps no such promise: its shares are on the grain exactly when
      the share is, or when one share is the whole job. */
  lemma StaticSharesOnGrain(rows: nat, n: nat, grain: nat)
    requires n > 0 && grain > 0 && rows > 0
    ensures (forall i :: 0 <= i < n ==> ShareOnGrain(rows, n, grain, i))
            <==> CeilDiv(rows, n) % grain == 0 || CeilDiv(rows, n) >= rows
  {
    hide CeilDiv;
    var per := CeilDiv(rows, n);
    if per % grain == 0 {
      forall i | 0 <= i < n ensures ShareOnGrain(rows, n, grain, i) { ShareStart(per, grain, i); }
    } else if per >= rows {
      forall i | 0 <= i < n ensures ShareOnGrain(rows, n, grain, i) {
        if i > 0 { MulMono(per, 0, i); }
      }
    } else {
      assert per * 0 == 0;
      assert !ShareOnGrain(rows, n, grain, 0);
    }
  }

  /** Ten rows over four workers in grains of four: the second worker starts at row three. */
  lemma StaticShareOffGrain()
    ensures ShareLo(10, 4, 1) == 3 < ShareHi(10, 4, 1) && !ShareOnGrain(10, 4, 4, 1)
  {
  }

  lemma ShareStart(per: nat, grain: nat, i: nat)
    requires grain > 0 && per % grain == 0
    ensures (per * i) % grain == 0
  {
    MultipleOf(per, grain);
    assert per * i == (per / grain * i) * grain;
    MulMod(per / grain * i, grain);
  }

  // ---- every job ends ----

  function Weight(s: State, i: nat): nat
    requires WellFormed(s) && i < s.N()
  {
    match s.workers[i]
    case Lock => if s.seen[i] == s.gen then 2 else 14 + 2 * s.job.rows
    case Asleep => 1
    case Armed => 13 + 2 * s.job.rows
    case Claiming => 7
    case Claimed(r0) => if r0 < s.job.rows then 7 + 6 * Min(s.chunk, s.job.rows - r0) else 6
    case Running(r, end) => 8 + 2 * (if r < end then end - r else 0)
    case Finishing => 5
  }

  function Weights(s: State, k: nat): nat
    requires WellFormed(s) && k <= s.N()
  {
    if k == 0 then 0 else Weights(s, k - 1) + Weight(s, k - 1)
  }

  function Unclaimed(s: State): nat {
    if s.chunk > 0 && s.next < s.job.rows then s.job.rows - s.next else 0
  }

  /** Work still to do before the current job can return. */
  function Left(s: State): nat
    requires WellFormed(s)
  {
    8 * Unclaimed(s) + Weights(s, s.N()) + if s.master.Checking? then 1 else 0
  }

  lemma {:induction false} WeightsMoved(s: State, t: State, i: nat, k: nat)
    requires WellFormed(s) && i < s.N() && OnlyMoved(s, t, i) && k <= s.N()
    ensures Weights(t, k) == Weights(s, k) + if i < k then Weight(t, i) - Weight(s, i) else 0
  {
    if k > 0 {
      WeightsMoved(s, t, i, k - 1);
      if k - 1 != i {
        assert t.workers[k - 1] == s.workers[k - 1] && t.seen[k - 1] == s.seen[k - 1];
      }
    }
  }

  lemma WorkerLeftDecreases(s: State, i: nat)
    requires WellFormed(s) && i < s.N() && WorkerOk(s, i) && !s.workers[i].Asleep?
    ensures WellFormed(WorkStep(s, i))
    ensures var t := WorkStep(s, i);
            8 * Unclaimed(t) + Weight(t, i) + (if t.master.Checking? then 1 else 0)
            < 8 * Unclaimed(s) + Weight(s, i) + (if s.master.Checking? then 1 else 0)
  {
    hide ShareLo, ShareHi, LeftLoop, Unstarted, Quiet;
    StepMoves(s, i);
    match s.workers[i]
    case Lock =>
    case Armed => ShareSize(s.job.rows, s.N(), i);
    case Claiming => ClaimLeft(s, i);
    case Claimed(r0) =>
    case Running(r, end) =>
    case Finishing => ReturnsQuiet(s, i);
  }

  lemma ClaimLeft(s: State, i: nat)
    requires WellFormed(s) && i < s.N() && WorkerOk(s, i) && s.workers[i].Claiming?
    ensures var t := WorkStep(s, i);
            WellFormed(t) && 8 * Unclaimed(t) + Weight(t, i) < 8 * Unclaimed(s) + Weight(s, i) && t.master == s.master
  {
    hide ShareLo, ShareHi;
  }

  lemma ReturnsQuiet(s: State, i: nat)
    requires WellFormed(s) && i < s.N() && WorkerOk(s, i) && s.workers[i].Finishing?
    ensures WorkStep(s, i).seen[i] == s.gen
  {
  }

  lemma ShareSize(rows: nat, n: nat, i: nat)
    requires n > 0
    ensures ShareHi(rows, n, i) <= ShareLo(rows, n, i) + rows
  {
    hide CeilDiv;
  }

  /** Every step but a spurious wakeup brings the job nearer its end. */
  lemma StepsLeftDecreases(s: State, a: Action)
    requires Inv(s) && !s.master.Outside? && Enabled(s, a)
    requires a.Work? || a.Recheck?
    ensures Inv(Do(s, a)) && Left(Do(s, a)) < Left(s)
    ensures Do(s, a).job == s.job && Do(s, a).gen == s.gen
  {
    StepKeepsInv(s, a);
    if a.Work? {
      WorkKeepsPhases(s, a.i);
      WorkerLeftDecreases(s, a.i);
      WeightsMoved(s, WorkStep(s, a.i), a.i, s.N());
    } else {
      SameWeights(s, Do(s, a), s.N());
    }
  }

  lemma {:induction false} SameWeights(s: State, t: State, k: nat)
    requires WellFormed(s) && t == s.(master := t.master) && k <= s.N()
    ensures Weights(t, k) == Weights(s, k)
  {
    if k > 0 { SameWeights(s, t, k - 1); }
  }

  /** No wakeup is lost: while a job is out, the master or some worker can move without
      waiting for a spurious wakeup. */
  lemma NeverStuck(s: State) returns (a: Action)
    requires Inv(s) && !s.master.Outside?
    ensures Enabled(s, a) && (a.Work? || a.Recheck?)
  {
    a := Recheck;
    if s.master.Waiting? {
      if i: nat :| i < s.N() && !s.workers[i].Asleep? {
        a := Work(i);
      } else {
        forall i: nat | i < s.N() ensures i in QuietSet(s) { assert WorkerOk(s, i); }
        CountAll(QuietSet(s), s.N());
        assert false;
      }
    }
  }

  /** From every state a job can be in, it returns within Left(s) steps, whichever
      enabled steps NeverStuck offers are taken. */
  lemma {:induction false} JobReturns(s: State) returns (acts: seq<Action>, t: State)
    requires Inv(s) && !s.master.Outside?
    ensures Reaches(s, acts, t) && t.master.Outside? && |acts| <= Left(s)
    ensures t.job == s.job && t.gen == s.gen
    decreases Left(s)
  {
    hide Phases, Covers, Grained, Left, Do;
    var a := NeverStuck(s);
    StepsLeftDecreases(s, a);
    var u := Do(s, a);
    if u.master.Outside? {
      acts, t := [a], u;
      assert Reaches(u, [], t);
    } else {
      acts, t := JobReturns(u);
      assert ([a] + acts)[1..] == acts;
      acts := [a] + acts;
    }
  }

  /** And there is no other way to run: whatever is scheduled, once as many steps have been taken
      as the measure counts, none of them a spurious wakeup, the job has returned. */
  lemma {:induction false} EveryRunReturns(s: State, acts: seq<Action>, t: State) returns (k: nat, u: State)
    requires Inv(s) && !s.master.Outside? && Reaches(s, acts, t) && |acts| >= Left(s)
    requires forall a <- acts :: !a.Spurious? && !a.SpuriousMaster?
    ensures k <= |acts| && k <= Left(s) && Reaches(s, acts[..k], u) && u.master.Outside?
    ensures u.job == s.job && u.gen == s.gen
    decreases |acts|
  {
    hide Phases, Covers, Grained, Left, Do;
    var some := NeverStuck(s);
    StepsLeftDecreases(s, some);
    var next := Do(s, acts[0]);
    StepsLeftDecreases(s, acts[0]);
    if next.master.Outside? {
      k, u := 1, next;
      assert acts[..1][1..] == [];
    } else {
      k, u := EveryRunReturns(next, acts[1..], t);
      k := k + 1;
      assert acts[..k][1..] == acts[1..][..k - 1];
    }
  }
}
