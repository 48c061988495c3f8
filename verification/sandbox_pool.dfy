/** The warm worker pool of services/sandbox_pool.py.

    Every stretch of code between two awaits is one atomic step, so the pool is a state
    machine whose steps interleave freely: start-up, submits, the health sweep, the
    background refills and processes that exit on their own. `Enabled` and `Apply` say
    what each step needs and does; `WorkerPool` performs the steps on its fields. */
module SandboxPool {

  /** `exited`: the process has a return code; `alive`: the pool has not discarded it. */
  datatype Worker = Worker(jobs: nat, alive: bool, exited: bool, spawnedAt: int)

  /** Where one `_reap_and_refill` task is: awaiting the old process, awaiting the lock,
      or holding the lock while the replacement starts. */
  datatype Refill = Reaping | Waiting | Spawning

  datatype Lock = Unlocked | HeldByStart | HeldByRefill(reaped: nat)

  /** Outcome of `_spawn_worker`: no process or no pong, or a warm worker. */
  datatype Spawn = SpawnFailed | Warm(id: nat, now: int)

  datatype Pool = Pool(
    size: nat, maxJobs: nat, maxAge: nat,
    started: bool, closed: bool,
    free: seq<nat>,              // the queue of idle workers
    all: set<nat>,               // resident workers
    workers: map<nat, Worker>,   // every worker ever resident
    waiting: set<nat>,           // submits awaiting a worker
    leases: map<nat, nat>,       // submit -> the worker running its job
    swept: seq<nat>,             // drained by the sweep and not yet dealt with
    sweepTime: int, pinging: bool,
    lock: Lock, startLeft: nat,
    refills: map<nat, Refill>,   // discarded worker -> its refill task
    failed: nat,                 // spawns that produced no worker
    abandoned: nat)              // start-up spawns given up when a start was cancelled

  datatype Action =
    | StartBegin
    | StartSpawned(outcome: Spawn)
    | StartEnd
    | StartCancelled
    | Exit(w: nat)
    | SubmitEnter(call: nat)
    | SubmitGiveUp(call: nat)
    | Take(call: nat)
    | JobDone(call: nat)
    | JobFailed(call: nat)
    | SweepDrain(now: int)
    | SweepCheck
    | SweepPong(ok: bool)
    | Reaped(w: nat)
    | RefillEnter(w: nat)
    | RefillSpawned(w: nat, outcome: Spawn)
    | Shutdown
    | CancelRefills

  predicate Init(s: Pool) {
    && !s.started && !s.closed && s.free == [] && s.all == {} && s.workers == map[]
    && s.waiting == {} && s.leases == map[] && s.swept == [] && !s.pinging
    && s.lock == Unlocked && s.startLeft == 0 && s.refills == map[] && s.failed == 0 && s.abandoned == 0
  }

  predicate FreshSpawn(s: Pool, outcome: Spawn) {
    outcome.Warm? ==> outcome.id !in s.workers
  }

  predicate Enabled(s: Pool, a: Action) {
    match a
    case StartBegin => s.lock == Unlocked && !s.started && !s.closed
    case StartSpawned(outcome) => s.lock == HeldByStart && s.startLeft > 0 && FreshSpawn(s, outcome)
    case StartEnd => s.lock == HeldByStart && s.startLeft == 0
    case StartCancelled => s.lock == HeldByStart && s.startLeft > 0
    case Exit(w) => w in s.workers
    case SubmitEnter(call) => !s.closed && call !in s.waiting && call !in s.leases
    case SubmitGiveUp(call) => call in s.waiting
    case Take(call) => call in s.waiting && call !in s.leases && s.free != [] && s.free[0] in s.workers
    case JobDone(call) => call in s.leases && s.leases[call] in s.workers
    case JobFailed(call) => call in s.leases && s.leases[call] in s.workers
    case SweepDrain(_) => !s.closed && s.swept == []
    case SweepCheck => s.swept != [] && !s.pinging && s.swept[0] in s.workers
    case SweepPong(_) => s.swept != [] && s.pinging && s.swept[0] in s.workers
    case Reaped(w) => w in s.refills && s.refills[w] == Reaping
    case RefillEnter(w) => w in s.refills && s.refills[w] == Waiting && s.lock == Unlocked
    case RefillSpawned(w, outcome) => s.lock == HeldByRefill(w) && w in s.refills && FreshSpawn(s, outcome)
    case Shutdown => true
    case CancelRefills => s.closed
  }

  /** `_discard`: out of circulation at once, refill scheduled; a second discard is a no-op. */
  function Discarded(s: Pool, w: nat): Pool
    requires w in s.workers
  {
    if !s.workers[w].alive then s
    else s.(workers := s.workers[w := s.workers[w].(alive := false)],
            all := s.all - {w},
            refills := s.refills[w := Reaping])
  }

  function Admitted(s: Pool, outcome: Spawn): Pool {
    match outcome
    case SpawnFailed => s.(failed := s.failed + 1)
    case Warm(id, now) =>
      s.(workers := s.workers[id := Worker(0, true, false, now)], all := s.all + {id}, free := s.free + [id])
  }

  predicate Aged(s: Pool, w: nat)
    requires w in s.workers
  {
    s.maxAge > 0 && s.sweepTime - s.workers[w].spawnedAt >= s.maxAge
  }

  function TakeStep(s: Pool, call: nat): Pool
    requires Enabled(s, Take(call))
  {
    var w := s.free[0];
    var s' := s.(free := s.free[1..]);
    if s.workers[w].exited then Discarded(s', w)
    else s'.(waiting := s.waiting - {call}, leases := s.leases[call := w])
  }

  function JobDoneStep(s: Pool, call: nat): Pool
    requires Enabled(s, JobDone(call))
  {
    var w := s.leases[call];
    var worker := s.workers[w].(jobs := s.workers[w].jobs + 1);
    var s' := s.(leases := s.leases - {call}, workers := s.workers[w := worker]);
    if s.maxJobs > 0 && worker.jobs >= s.maxJobs then Discarded(s', w)
    else s'.(free := s.free + [w])
  }

  function SweepCheckStep(s: Pool): Pool
    requires Enabled(s, SweepCheck)
  {
    var w := s.swept[0];
    var s' := s.(swept := s.swept[1..]);
    if s.closed then s'.(free := s.free + [w])
    else if s.workers[w].exited || Aged(s, w) then Discarded(s', w)
    else s.(pinging := true)
  }

  function SweepPongStep(s: Pool, ok: bool): Pool
    requires Enabled(s, SweepPong(ok))
  {
    var w := s.swept[0];
    var s' := s.(swept := s.swept[1..], pinging := false);
    if ok then s'.(free := s.free + [w]) else Discarded(s', w)
  }

  function RefillEnterStep(s: Pool, w: nat): Pool
    requires Enabled(s, RefillEnter(w))
  {
    if s.closed || |s.all| >= s.size then s.(refills := s.refills - {w})
    else s.(refills := s.refills[w := Spawning], lock := HeldByRefill(w))
  }

  function RefillSpawnedStep(s: Pool, w: nat, outcome: Spawn): Pool
    requires Enabled(s, RefillSpawned(w, outcome))
  {
    var s' := s.(refills := s.refills - {w}, lock := Unlocked);
    if outcome.Warm? && s.closed then s' else Admitted(s', outcome)
  }

  /** `_terminate` marks every resident as discarded, without a refill. */
  function Terminated(all: set<nat>, workers: map<nat, Worker>): map<nat, Worker> {
    map w | w in workers :: if w in all then workers[w].(alive := false) else workers[w]
  }

  function ShutdownStep(s: Pool): Pool {
    s.(closed := true, all := {}, free := [], swept := [], pinging := false, workers := Terminated(s.all, s.workers))
  }

  function Apply(s: Pool, a: Action): Pool
    requires Enabled(s, a)
  {
    match a
    case StartBegin => s.(started := true, lock := HeldByStart, startLeft := s.size)
    case StartSpawned(outcome) => Admitted(s.(startLeft := s.startLeft - 1), outcome)
    case StartEnd => s.(lock := Unlocked)
    // The submit that was starting the pool is cancelled; nobody takes over its spawns.
    case StartCancelled => s.(lock := Unlocked, abandoned := s.abandoned + s.startLeft, startLeft := 0)
    case Exit(w) => s.(workers := s.workers[w := s.workers[w].(exited := true)])
    case SubmitEnter(call) => s.(waiting := s.waiting + {call})
    case SubmitGiveUp(call) => s.(waiting := s.waiting - {call})
    case Take(call) => TakeStep(s, call)
    case JobDone(call) => JobDoneStep(s, call)
    case JobFailed(call) => Discarded(s.(leases := s.leases - {call}), s.leases[call])
    case SweepDrain(now) => s.(swept := s.free, free := [], sweepTime := now)
    case SweepCheck => SweepCheckStep(s)
    case SweepPong(ok) => SweepPongStep(s, ok)
    case Reaped(w) =>
      if s.closed then s.(refills := s.refills - {w}) else s.(refills := s.refills[w := Waiting])
    case RefillEnter(w) => RefillEnterStep(s, w)
    case RefillSpawned(w, outcome) => RefillSpawnedStep(s, w, outcome)
    case Shutdown => ShutdownStep(s)
    case CancelRefills => s.(refills := map[], lock := if s.lock.HeldByRefill? then Unlocked else s.lock)
  }

  // ---- The invariant -----------------------------------------------------------------

  ghost function Elems(xs: seq<nat>): set<nat> {
    set x | x in xs
  }

  ghost predicate Unique(xs: seq<nat>) {
    forall i, j :: 0 <= i < j < |xs| ==> xs[i] != xs[j]
  }

  ghost predicate Injective(m: map<nat, nat>) {
    forall c, d :: c in m && d in m && c != d ==> m[c] != m[d]
  }

  /** Every resident worker outside `held` is in one place (the queue, a lease, the sweep),
      and only residents are anywhere. */
  ghost predicate Placement(all: set<nat>, free: seq<nat>, swept: seq<nat>, leases: map<nat, nat>, held: set<nat>) {
    && all == Elems(free) + Elems(swept) + leases.Values + held
    && Elems(free) !! Elems(swept) !! leases.Values !! held
    && Unique(free) && Unique(swept) && Injective(leases)
  }

  /** Residents are exactly the workers not discarded, refills stand for discarded ones,
      and the jobs cap holds, with room for one more on every resident outside `held`. */
  ghost predicate Records(maxJobs: nat, all: set<nat>, workers: map<nat, Worker>, refills: map<nat, Refill>, held: set<nat>) {
    && (forall w :: w in all <==> w in workers && workers[w].alive)
    && (forall w :: w in refills ==> w in workers && !workers[w].alive)
    && (maxJobs > 0 ==> forall w :: w in workers ==>
          workers[w].jobs <= maxJobs && (workers[w].alive && w !in held ==> workers[w].jobs < maxJobs))
  }

  function PendingStart(s: Pool): nat {
    if s.started then s.startLeft else s.size
  }

  ghost predicate Counted(s: Pool) {
    |s.all| + |s.refills| + s.failed + s.abandoned + PendingStart(s) == s.size
  }

  ghost predicate Locked(lock: Lock, started: bool, startLeft: nat, refills: map<nat, Refill>) {
    && (startLeft > 0 ==> lock == HeldByStart)
    && (lock == HeldByStart ==> started)
    && (forall w :: w in refills && refills[w] == Spawning <==> lock == HeldByRefill(w))
  }

  /** The invariant of the open pool while one worker may be in a step's hands. */
  ghost predicate OpenBut(s: Pool, held: set<nat>) {
    && Placement(s.all, s.free, s.swept, s.leases, held)
    && Records(s.maxJobs, s.all, s.workers, s.refills, held)
    && Counted(s)
    && Locked(s.lock, s.started, s.startLeft, s.refills)
    && s.waiting !! s.leases.Keys
    && (s.pinging ==> s.swept != [])
  }

  ghost predicate Inv(s: Pool) {
    !s.closed ==> OpenBut(s, {})
  }

  // ---- Moving one worker between places ------------------------------------------------

  lemma TakeHead(all: set<nat>, free: seq<nat>, swept: seq<nat>, leases: map<nat, nat>)
    requires Placement(all, free, swept, leases, {}) && free != []
    ensures Placement(all, free[1..], swept, leases, {free[0]}) && free[0] in all
  {
    assert free == [free[0]] + free[1..];
    assert free[0] in Elems(free) && Elems(free[1..]) == Elems(free) - {free[0]};
  }

  lemma TakeSwept(all: set<nat>, free: seq<nat>, swept: seq<nat>, leases: map<nat, nat>)
    requires Placement(all, free, swept, leases, {}) && swept != []
    ensures Placement(all, free, swept[1..], leases, {swept[0]}) && swept[0] in all
  {
    assert swept == [swept[0]] + swept[1..];
    assert swept[0] in Elems(swept) && Elems(swept[1..]) == Elems(swept) - {swept[0]};
  }

  lemma EndLease(all: set<nat>, free: seq<nat>, swept: seq<nat>, leases: map<nat, nat>, call: nat)
    requires Placement(all, free, swept, leases, {}) && call in leases
    ensures Placement(all, free, swept, leases - {call}, {leases[call]}) && leases[call] in all
  {
    var rest := leases - {call};
    assert leases[call] in leases.Values;
    assert rest.Values == leases.Values - {leases[call]} by {
      forall v | v in leases.Values - {leases[call]} ensures v in rest.Values {
        var c :| c in leases && leases[c] == v;
        assert rest[c] == v;
      }
    }
  }

  lemma BeginLease(all: set<nat>, free: seq<nat>, swept: seq<nat>, leases: map<nat, nat>, call: nat, w: nat)
    requires Placement(all, free, swept, leases, {w}) && call !in leases
    ensures Placement(all, free, swept, leases[call := w], {})
  {
    var more := leases[call := w];
    assert more.Values == leases.Values + {w} by {
      assert more[call] == w;
      forall v | v in leases.Values ensures v in more.Values {
        var c :| c in leases && leases[c] == v;
        assert more[c] == v;
      }
    }
  }

  lemma Queue(all: set<nat>, free: seq<nat>, swept: seq<nat>, leases: map<nat, nat>, w: nat)
    requires Placement(all, free, swept, leases, {w})
    ensures Placement(all, free + [w], swept, leases, {})
  {
    assert w !in Elems(free);
    assert Elems(free + [w]) == Elems(free) + {w};
  }

  lemma HeldIsResident(all: set<nat>, free: seq<nat>, swept: seq<nat>, leases: map<nat, nat>, w: nat)
    requires Placement(all, free, swept, leases, {w})
    ensures w in all
  {
  }

  lemma Remove(all: set<nat>, free: seq<nat>, swept: seq<nat>, leases: map<nat, nat>, w: nat)
    requires Placement(all, free, swept, leases, {w})
    ensures Placement(all - {w}, free, swept, leases, {})
  {
  }

  lemma Seat(all: set<nat>, free: seq<nat>, swept: seq<nat>, leases: map<nat, nat>, w: nat)
    requires Placement(all, free, swept, leases, {}) && w !in all
    ensures Placement(all + {w}, free + [w], swept, leases, {})
  {
    Queue(all + {w}, free, swept, leases, w);
  }

  lemma Drain(all: set<nat>, free: seq<nat>, leases: map<nat, nat>)
    requires Placement(all, free, [], leases, {})
    ensures Placement(all, [], free, leases, {})
  {
    assert Elems([]) == {};
  }

  // ---- Every step keeps the invariant ------------------------------------------------------

  /** A worker in hand may be discarded: its refill takes over its seat. */
  lemma DiscardKeeps(s: Pool, w: nat)
    requires OpenBut(s, {w})
    ensures w in s.workers && OpenBut(Discarded(s, w), {})
  {
    HeldIsResident(s.all, s.free, s.swept, s.leases, w);
    hide Placement, Records;
    Remove(s.all, s.free, s.swept, s.leases, w);
    RecordDiscard(s.maxJobs, s.all, s.workers, s.refills, w);
    LockKept(s.lock, s.started, s.startLeft, s.refills, w);
    hide Locked;
  }

  lemma LockKept(lock: Lock, started: bool, startLeft: nat, refills: map<nat, Refill>, w: nat)
    requires Locked(lock, started, startLeft, refills) && w !in refills
    ensures Locked(lock, started, startLeft, refills[w := Reaping])
  {
  }

  lemma RecordDiscard(maxJobs: nat, all: set<nat>, workers: map<nat, Worker>, refills: map<nat, Refill>, w: nat)
    requires Records(maxJobs, all, workers, refills, {w}) && w in all
    ensures w in workers && workers[w].alive && w !in refills
    ensures Records(maxJobs, all - {w}, workers[w := workers[w].(alive := false)], refills[w := Reaping], {})
    ensures |all - {w}| == |all| - 1 && |refills[w := Reaping]| == |refills| + 1
  {
  }

  lemma RequeueKeeps(s: Pool, w: nat)
    requires OpenBut(s, {w})
    requires s.maxJobs > 0 ==> w in s.workers && s.workers[w].jobs < s.maxJobs
    ensures OpenBut(s.(free := s.free + [w]), {})
  {
    RecordRequeued(s.maxJobs, s.all, s.workers, s.refills, w);
    hide Placement, Records;
    Queue(s.all, s.free, s.swept, s.leases, w);
  }

  lemma RecordRequeued(maxJobs: nat, all: set<nat>, workers: map<nat, Worker>, refills: map<nat, Refill>, w: nat)
    requires Records(maxJobs, all, workers, refills, {w})
    requires maxJobs > 0 ==> w in workers && workers[w].jobs < maxJobs
    ensures Records(maxJobs, all, workers, refills, {})
  {
  }

  lemma RecordNew(maxJobs: nat, all: set<nat>, workers: map<nat, Worker>, refills: map<nat, Refill>, id: nat, now: int)
    requires Records(maxJobs, all, workers, refills, {}) && id !in workers
    ensures id !in all && Records(maxJobs, all + {id}, workers[id := Worker(0, true, false, now)], refills, {})
  {
  }

  lemma RecordJob(maxJobs: nat, all: set<nat>, workers: map<nat, Worker>, refills: map<nat, Refill>, w: nat)
    requires Records(maxJobs, all, workers, refills, {}) && w in all
    ensures Records(maxJobs, all, workers[w := workers[w].(jobs := workers[w].jobs + 1)], refills, {w})
  {
  }

  lemma RecordExit(maxJobs: nat, all: set<nat>, workers: map<nat, Worker>, refills: map<nat, Refill>, w: nat)
    requires Records(maxJobs, all, workers, refills, {}) && w in workers
    ensures Records(maxJobs, all, workers[w := workers[w].(exited := true)], refills, {})
  {
  }

  lemma AdmitKeeps(s: Pool, outcome: Spawn)
    requires OpenBut(s.(failed := s.failed + 1), {}) && FreshSpawn(s, outcome)
    ensures OpenBut(Admitted(s, outcome), {})
  {
    if outcome.Warm? {
      RecordNew(s.maxJobs, s.all, s.workers, s.refills, outcome.id, outcome.now);
      Seat(s.all, s.free, s.swept, s.leases, outcome.id);
      var t := Admitted(s, outcome);
      assert Placement(t.all, t.free, t.swept, t.leases, {});
      assert Records(t.maxJobs, t.all, t.workers, t.refills, {});
      assert Locked(t.lock, t.started, t.startLeft, t.refills);
      assert |t.all| == |s.all| + 1;
    }
  }

  lemma RecordHeld(maxJobs: nat, all: set<nat>, workers: map<nat, Worker>, refills: map<nat, Refill>, w: nat)
    requires Records(maxJobs, all, workers, refills, {})
    ensures Records(maxJobs, all, workers, refills, {w})
  {
  }

  lemma FreeInHand(s: Pool)
    requires OpenBut(s, {}) && s.free != []
    ensures OpenBut(s.(free := s.free[1..]), {s.free[0]})
  {
    hide Placement, Records;
    TakeHead(s.all, s.free, s.swept, s.leases);
    RecordHeld(s.maxJobs, s.all, s.workers, s.refills, s.free[0]);
  }

  lemma WaitingApart(waiting: set<nat>, leases: map<nat, nat>, call: nat, w: nat)
    requires waiting !! leases.Keys
    ensures waiting - {call} !! leases[call := w].Keys
  {
  }

  lemma LeaseKeeps(s: Pool, call: nat)
    requires OpenBut(s, {}) && call !in s.leases && s.free != []
    ensures OpenBut(s.(free := s.free[1..], waiting := s.waiting - {call}, leases := s.leases[call := s.free[0]]), {})
  {
    hide Placement, Records;
    TakeHead(s.all, s.free, s.swept, s.leases);
    BeginLease(s.all, s.free[1..], s.swept, s.leases, call, s.free[0]);
    WaitingApart(s.waiting, s.leases, call, s.free[0]);
  }

  lemma TakeKeeps(s: Pool, call: nat)
    requires OpenBut(s, {}) && Enabled(s, Take(call))
    ensures OpenBut(TakeStep(s, call), {})
  {
    hide OpenBut, Discarded;
    var w := s.free[0];
    if s.workers[w].exited {
      FreeInHand(s);
      DiscardKeeps(s.(free := s.free[1..]), w);
    } else {
      LeaseKeeps(s, call);
    }
  }

  lemma JobFailedKeeps(s: Pool, call: nat)
    requires OpenBut(s, {}) && call in s.leases
    ensures OpenBut(s.(leases := s.leases - {call}), {s.leases[call]})
  {
    EndLease(s.all, s.free, s.swept, s.leases, call);
  }

  lemma JobDoneKeeps(s: Pool, call: nat)
    requires OpenBut(s, {}) && Enabled(s, JobDone(call))
    ensures OpenBut(JobDoneStep(s, call), {})
  {
    hide Placement, Records;
    var w := s.leases[call];
    JobFailedKeeps(s, call);
    var worker := s.workers[w].(jobs := s.workers[w].jobs + 1);
    var t := s.(leases := s.leases - {call}, workers := s.workers[w := worker]);
    assert w in s.all by { EndLease(s.all, s.free, s.swept, s.leases, call); }
    RecordJob(s.maxJobs, s.all, s.workers, s.refills, w);
    assert Placement(t.all, t.free, t.swept, t.leases, {w});
    assert Records(t.maxJobs, t.all, t.workers, t.refills, {w});
    assert OpenBut(t, {w});
    if s.maxJobs > 0 && worker.jobs >= s.maxJobs {
      DiscardKeeps(t, w);
    } else {
      RequeueKeeps(t, w);
    }
  }

  lemma SweptInHand(s: Pool)
    requires OpenBut(s, {}) && s.swept != []
    ensures OpenBut(s.(swept := s.swept[1..], pinging := false), {s.swept[0]})
  {
    TakeSwept(s.all, s.free, s.swept, s.leases);
  }

  lemma SweepCheckKeeps(s: Pool)
    requires !s.closed && OpenBut(s, {}) && Enabled(s, SweepCheck)
    ensures OpenBut(SweepCheckStep(s), {})
  {
    var w := s.swept[0];
    SweptInHand(s);
    if s.workers[w].exited || Aged(s, w) {
      DiscardKeeps(s.(swept := s.swept[1..], pinging := false), w);
      assert SweepCheckStep(s) == Discarded(s.(swept := s.swept[1..], pinging := false), w);
    }
  }

  lemma SweepPongKeeps(s: Pool, ok: bool)
    requires OpenBut(s, {}) && Enabled(s, SweepPong(ok))
    ensures OpenBut(SweepPongStep(s, ok), {})
  {
    var w := s.swept[0];
    SweptInHand(s);
    var t := s.(swept := s.swept[1..], pinging := false);
    if ok {
      assert w in s.all by { TakeSwept(s.all, s.free, s.swept, s.leases); }
      RequeueKeeps(t, w);
    } else {
      DiscardKeeps(t, w);
    }
  }

  lemma RecordRefill(maxJobs: nat, all: set<nat>, workers: map<nat, Worker>, refills: map<nat, Refill>, w: nat, r: Refill)
    requires Records(maxJobs, all, workers, refills, {}) && w in refills
    ensures Records(maxJobs, all, workers, refills[w := r], {})
    ensures Records(maxJobs, all, workers, refills - {w}, {}) && |refills - {w}| == |refills| - 1
  {
    assert (refills - {w}).Keys == refills.Keys - {w};
  }

  lemma RefillEnterKeeps(s: Pool, w: nat)
    requires !s.closed && OpenBut(s, {}) && Enabled(s, RefillEnter(w))
    ensures |s.all| < s.size && OpenBut(RefillEnterStep(s, w), {})
  {
    hide Placement, Records;
    RecordRefill(s.maxJobs, s.all, s.workers, s.refills, w, Spawning);
    assert |s.refills| > 0;
  }

  lemma RefillSpawnedKeeps(s: Pool, w: nat, outcome: Spawn)
    requires !s.closed && OpenBut(s, {}) && Enabled(s, RefillSpawned(w, outcome))
    ensures OpenBut(RefillSpawnedStep(s, w, outcome), {})
  {
    hide Placement, Records;
    RecordRefill(s.maxJobs, s.all, s.workers, s.refills, w, Spawning);
    AdmitKeeps(s.(refills := s.refills - {w}, lock := Unlocked), outcome);
  }

  lemma JobFailedStepKeeps(s: Pool, call: nat)
    requires OpenBut(s, {}) && Enabled(s, JobFailed(call))
    ensures OpenBut(Apply(s, JobFailed(call)), {})
  {
    JobFailedKeeps(s, call);
    DiscardKeeps(s.(leases := s.leases - {call}), s.leases[call]);
  }

  lemma StartSpawnedKeeps(s: Pool, outcome: Spawn)
    requires OpenBut(s, {}) && Enabled(s, StartSpawned(outcome))
    ensures OpenBut(Apply(s, StartSpawned(outcome)), {})
  {
    hide Placement, Records;
    AdmitKeeps(s.(startLeft := s.startLeft - 1), outcome);
  }

  lemma DrainKeeps(s: Pool, now: int)
    requires OpenBut(s, {}) && Enabled(s, SweepDrain(now))
    ensures OpenBut(Apply(s, SweepDrain(now)), {})
  {
    Drain(s.all, s.free, s.leases);
  }

  /** The steps that move no worker. */
  lemma QuietStepKeeps(s: Pool, a: Action)
    requires !s.closed && OpenBut(s, {}) && Enabled(s, a)
    requires a.StartBegin? || a.StartEnd? || a.StartCancelled? || a.Exit? || a.SubmitEnter? || a.SubmitGiveUp? || a.Reaped?
    ensures OpenBut(Apply(s, a), {})
  {
    hide Placement, Records;
    match a {
      case Exit(w) => RecordExit(s.maxJobs, s.all, s.workers, s.refills, w);
      case Reaped(w) => RecordRefill(s.maxJobs, s.all, s.workers, s.refills, w, Waiting);
      case _ =>
    }
  }

  /** No step of any interleaving breaks the invariant of the open pool. */
  lemma StepKeeps(s: Pool, a: Action)
    requires Inv(s) && Enabled(s, a)
    ensures Inv(Apply(s, a))
  {
    hide OpenBut;
    if !s.closed {
      match a {
        case Take(call) => TakeKeeps(s, call);
        case JobDone(call) => JobDoneKeeps(s, call);
        case JobFailed(call) => JobFailedStepKeeps(s, call);
        case SweepDrain(now) => DrainKeeps(s, now);
        case SweepCheck => SweepCheckKeeps(s);
        case SweepPong(ok) => SweepPongKeeps(s, ok);
        case RefillEnter(w) => RefillEnterKeeps(s, w);
        case RefillSpawned(w, outcome) => RefillSpawnedKeeps(s, w, outcome);
        case StartSpawned(outcome) => StartSpawnedKeeps(s, outcome);
        case Shutdown =>
        case CancelRefills =>
        case _ => QuietStepKeeps(s, a);
      }
    }
  }

  // ---- What holds in every interleaving ------------------------------------------------------

  ghost predicate IsRun(states: seq<Pool>, actions: seq<Action>) {
    && |states| == |actions| + 1 && Init(states[0])
    && forall i :: 0 <= i < |actions| ==> Enabled(states[i], actions[i]) && states[i + 1] == Apply(states[i], actions[i])
  }

  lemma {:induction false} RunKeeps(states: seq<Pool>, actions: seq<Action>, i: nat)
    requires IsRun(states, actions) && i < |states|
    ensures Inv(states[i])
  {
    if i == 0 {
      InitKeeps(states[0]);
    } else {
      RunKeeps(states, actions, i - 1);
      StepKeeps(states[i - 1], actions[i - 1]);
    }
  }

  lemma InitKeeps(s: Pool)
    requires Init(s)
    ensures Inv(s)
  {
    assert Elems([]) == {};
    assert s.leases.Values == {};
  }

  /** Conservation: residents, pending refills, failed spawns, start-up spawns still to come
      and those a cancelled start gave up always add up to the configured size; so residents
      never exceed it and a pending refill always finds room. */
  lemma Conservation(states: seq<Pool>, actions: seq<Action>, i: nat)
    requires IsRun(states, actions) && i < |states| && !states[i].closed
    ensures |states[i].all| + |states[i].refills| + states[i].failed + states[i].abandoned + PendingStart(states[i])
         == states[i].size
    ensures states[i].refills != map[] ==> |states[i].all| < states[i].size
  {
    hide Placement, Records;
    RunKeeps(states, actions, i);
    if states[i].refills != map[] {
      var w :| w in states[i].refills;
      assert |states[i].refills| > 0;
    }
  }

  /** The basic law: residents, pending refills, failed spawns and start-up spawns still to
      come add up to the configured size exactly as long as no start was cancelled. */
  lemma ConservationExactly(states: seq<Pool>, actions: seq<Action>, i: nat)
    requires IsRun(states, actions) && i < |states| && !states[i].closed
    ensures |states[i].all| + |states[i].refills| + states[i].failed + PendingStart(states[i]) == states[i].size
       <==> forall k :: 0 <= k < i ==> !actions[k].StartCancelled?
  {
    hide IsRun, PendingStart;
    Conservation(states, actions, i);
    AbandonedExactly(states, actions, i);
  }

  /** Spawns have been given up exactly if some start was cancelled. */
  lemma {:induction false} AbandonedExactly(states: seq<Pool>, actions: seq<Action>, i: nat)
    requires IsRun(states, actions) && i < |states|
    ensures states[i].abandoned == 0 <==> forall k :: 0 <= k < i ==> !actions[k].StartCancelled?
  {
    hide Enabled, Apply;
    if i > 0 {
      AbandonedExactly(states, actions, i - 1);
      assert states[i - 1 + 1] == Apply(states[i - 1], actions[i - 1]);
      AbandonedStep(states[i - 1], actions[i - 1]);
    } else {
      assert Init(states[0]);
    }
  }

  /** A start cut short is never made up for: from then on the pool stays that much smaller. */
  lemma {:induction false} AbandonedForGood(states: seq<Pool>, actions: seq<Action>, i: nat, j: nat)
    requires IsRun(states, actions) && i < j < |states| && actions[i].StartCancelled? && !states[j].closed
    ensures |states[j].all| <= states[j].size - states[i].startLeft < states[j].size
    decreases j
  {
    AbandonedGrows(states, actions, i + 1, j);
    RunKeeps(states, actions, j);
  }

  lemma {:induction false} AbandonedGrows(states: seq<Pool>, actions: seq<Action>, i: nat, j: nat)
    requires IsRun(states, actions) && i <= j < |states|
    ensures states[i].abandoned <= states[j].abandoned
    decreases j
  {
    hide Enabled, Apply, Init;
    if i < j {
      AbandonedGrows(states, actions, i, j - 1);
      assert states[j - 1 + 1] == Apply(states[j - 1], actions[j - 1]);
      AbandonedStep(states[j - 1], actions[j - 1]);
    }
  }

  lemma AbandonedStep(s: Pool, a: Action)
    requires Enabled(s, a)
    ensures Apply(s, a).abandoned == s.abandoned + if a.StartCancelled? then s.startLeft else 0
    ensures a.StartCancelled? ==> s.startLeft > 0
  {
    if a.Take? || a.JobDone? || a.JobFailed? {
      AbandonedJob(s, a);
    } else if a.SweepCheck? || a.SweepPong? || a.RefillEnter? || a.RefillSpawned? {
      AbandonedSweep(s, a);
    }
  }

  lemma AbandonedJob(s: Pool, a: Action)
    requires Enabled(s, a) && (a.Take? || a.JobDone? || a.JobFailed?)
    ensures s.abandoned == Apply(s, a).abandoned
  {
  }

  lemma AbandonedSweep(s: Pool, a: Action)
    requires Enabled(s, a) && (a.SweepCheck? || a.SweepPong? || a.RefillEnter? || a.RefillSpawned?)
    ensures s.abandoned == Apply(s, a).abandoned
  {
  }

  ghost function Positions(xs: seq<nat>, w: nat): set<int> {
    set i | 0 <= i < |xs| && xs[i] == w
  }

  ghost function Leasing(leases: map<nat, nat>, w: nat): set<nat> {
    set call | call in leases && leases[call] == w
  }

  /** In how many places a worker is: queue positions, sweep positions, running leases. */
  ghost function Copies(s: Pool, w: nat): nat {
    |Positions(s.free, w)| + |Positions(s.swept, w)| + |Leasing(s.leases, w)|
  }

  lemma PositionOnce(xs: seq<nat>, w: nat)
    requires Unique(xs)
    ensures |Positions(xs, w)| == if w in Elems(xs) then 1 else 0
  {
    if w in xs {
      var i :| 0 <= i < |xs| && xs[i] == w;
      assert Positions(xs, w) == {i};
    } else {
      assert Positions(xs, w) == {};
    }
  }

  lemma LeasedOnce(leases: map<nat, nat>, w: nat)
    requires Injective(leases)
    ensures |Leasing(leases, w)| == if w in leases.Values then 1 else 0
  {
    if w in leases.Values {
      var call :| call in leases && leases[call] == w;
      assert Leasing(leases, w) == {call};
    } else {
      assert Leasing(leases, w) == {};
    }
  }

  lemma PlacedOnce(s: Pool, w: nat)
    requires Placement(s.all, s.free, s.swept, s.leases, {})
    ensures Copies(s, w) == if w in s.all then 1 else 0
  {
    PositionOnce(s.free, w);
    PositionOnce(s.swept, w);
    LeasedOnce(s.leases, w);
  }

  /** Ownership: a resident worker is in exactly one place, once; anything else is nowhere. */
  lemma Ownership(states: seq<Pool>, actions: seq<Action>, i: nat, w: nat)
    requires IsRun(states, actions) && i < |states| && !states[i].closed
    ensures Copies(states[i], w) == if w in states[i].all then 1 else 0
  {
    hide Placement, Records, Copies;
    RunKeeps(states, actions, i);
    PlacedOnce(states[i], w);
  }

  // ---- Jobs served ----------------------------------------------------------------------------

  /** The step ends a job of `w` in success. */
  predicate Serves(s: Pool, a: Action, w: nat) {
    a.JobDone? && a.call in s.leases && s.leases[a.call] == w
  }

  /** The jobs `w` has served in the first `n` steps. */
  ghost function JobsServed(states: seq<Pool>, actions: seq<Action>, n: nat, w: nat): nat
    requires n <= |actions| && n <= |states|
  {
    if n == 0 then 0 else JobsServed(states, actions, n - 1, w) + if Serves(states[n - 1], actions[n - 1], w) then 1 else 0
  }

  /** What a step does to the job count of a worker, and to who is known at all. */
  lemma JobsStep(s: Pool, a: Action, w: nat)
    requires Enabled(s, a)
    ensures w in s.workers ==> w in Apply(s, a).workers
    ensures w in s.workers ==> Apply(s, a).workers[w].jobs == s.workers[w].jobs + if Serves(s, a, w) then 1 else 0
    ensures w !in s.workers && w in Apply(s, a).workers ==> Apply(s, a).workers[w].jobs == 0
  {
    if a.Take? || a.JobDone? || a.JobFailed? {
      JobsAfterJob(s, a, w);
    } else if a.SweepCheck? || a.SweepPong? || a.RefillEnter? || a.RefillSpawned? {
      JobsAfterSweep(s, a, w);
    } else {
      hide TakeStep, JobDoneStep, SweepCheckStep, SweepPongStep, RefillEnterStep, RefillSpawnedStep, Discarded;
    }
  }

  lemma JobsAfterJob(s: Pool, a: Action, w: nat)
    requires Enabled(s, a) && (a.Take? || a.JobDone? || a.JobFailed?)
    ensures w in s.workers <==> w in Apply(s, a).workers
    ensures w in s.workers ==> Apply(s, a).workers[w].jobs == s.workers[w].jobs + if Serves(s, a, w) then 1 else 0
  {
    match a {
      case Take(call) =>
        hide JobDoneStep;
        DiscardKeepsJobs(s.(free := s.free[1..]), s.free[0], w);
      case JobFailed(call) =>
        hide JobDoneStep, TakeStep;
        DiscardKeepsJobs(s.(leases := s.leases - {call}), s.leases[call], w);
      case JobDone(call) =>
        hide TakeStep, Discarded;
        var v := s.leases[call];
        var worker := s.workers[v].(jobs := s.workers[v].jobs + 1);
        DiscardKeepsJobs(s.(leases := s.leases - {call}, workers := s.workers[v := worker]), v, w);
    }
  }

  lemma DiscardKeepsJobs(s: Pool, v: nat, w: nat)
    requires v in s.workers
    ensures w in s.workers <==> w in Discarded(s, v).workers
    ensures w in s.workers ==> Discarded(s, v).workers[w].jobs == s.workers[w].jobs
  {
  }

  lemma JobsAfterSweep(s: Pool, a: Action, w: nat)
    requires Enabled(s, a) && (a.SweepCheck? || a.SweepPong? || a.RefillEnter? || a.RefillSpawned?)
    ensures w in s.workers ==> w in Apply(s, a).workers && Apply(s, a).workers[w].jobs == s.workers[w].jobs
    ensures w !in s.workers && w in Apply(s, a).workers ==> Apply(s, a).workers[w].jobs == 0
  {
  }

  /** The job count of a worker is the number of jobs it served. */
  lemma {:induction false} JobsAreCounted(states: seq<Pool>, actions: seq<Action>, n: nat, w: nat)
    requires IsRun(states, actions) && n < |states|
    ensures w in states[n].workers ==> states[n].workers[w].jobs == JobsServed(states, actions, n, w)
    ensures w !in states[n].workers ==> JobsServed(states, actions, n, w) == 0
  {
    hide Enabled, Apply;
    if n > 0 {
      JobsAreCounted(states, actions, n - 1, w);
      assert states[n - 1 + 1] == Apply(states[n - 1], actions[n - 1]);
      JobsStep(states[n - 1], actions[n - 1], w);
      ServesKnown(states[n - 1], actions[n - 1], w);
    }
  }

  lemma ServesKnown(s: Pool, a: Action, w: nat)
    requires Enabled(s, a)
    ensures Serves(s, a, w) ==> w in s.workers
  {
  }

  /** With `max_jobs` set, no worker of the open pool ever serves more jobs than that. */
  lemma JobsCapped(states: seq<Pool>, actions: seq<Action>, i: nat, w: nat)
    requires IsRun(states, actions) && i < |states| && !states[i].closed && states[i].maxJobs > 0
    ensures JobsServed(states, actions, i, w) <= states[i].maxJobs
  {
    hide Placement, IsRun;
    RunKeeps(states, actions, i);
    JobsAreCounted(states, actions, i, w);
  }

  /** After a job a worker stays resident, and is idle again, exactly if it has jobs left. */
  lemma WornOutExactly(states: seq<Pool>, actions: seq<Action>, i: nat, w: nat)
    requires IsRun(states, actions) && i < |actions| && !states[i].closed && Serves(states[i], actions[i], w)
    ensures w in states[i + 1].all <==> states[i].maxJobs == 0 || JobsServed(states, actions, i + 1, w) < states[i].maxJobs
    ensures w in states[i + 1].free <==> w in states[i + 1].all
  {
    RunKeeps(states, actions, i);
    JobsAreCounted(states, actions, i, w);
    hide IsRun;
    WornOutStep(states[i], actions[i], w);
  }

  lemma WornOutStep(s: Pool, a: Action, w: nat)
    requires !s.closed && Inv(s) && Enabled(s, a) && Serves(s, a, w)
    ensures w in Apply(s, a).all <==> s.maxJobs == 0 || s.workers[w].jobs + 1 < s.maxJobs
    ensures w in Apply(s, a).free <==> w in Apply(s, a).all
  {
    EndLease(s.all, s.free, s.swept, s.leases, a.call);
    hide Records;
    assert w in s.leases.Values && w !in Elems(s.free);
  }

  // ---- Spawned workers --------------------------------------------------------------------------

  /** The step brings in worker `w`, spawned at `t`. */
  predicate Spawns(a: Action, w: nat, t: int) {
    (a.StartSpawned? || a.RefillSpawned?) && a.outcome == Warm(w, t)
  }

  /** A worker that was spawned and answered joins the residents, behind the idle ones. */
  lemma SpawnedJoins(s: Pool, a: Action, w: nat, t: int)
    requires Enabled(s, a) && Spawns(a, w, t) && !s.closed
    ensures var after := Apply(s, a);
            after.all == s.all + {w} && after.free == s.free + [w] && w in after.workers && after.workers[w] == Worker(0, true, false, t)
  {
  }

  predicate FailsSpawn(a: Action) {
    (a.StartSpawned? || a.RefillSpawned?) && a.outcome == SpawnFailed
  }

  function FailedSpawns(actions: seq<Action>, n: nat): nat
    requires n <= |actions|
  {
    if n == 0 then 0 else FailedSpawns(actions, n - 1) + if FailsSpawn(actions[n - 1]) then 1 else 0
  }

  lemma FailedStep(s: Pool, a: Action)
    requires Enabled(s, a)
    ensures Apply(s, a).failed == s.failed + if FailsSpawn(a) then 1 else 0
  {
    if a.Take? || a.JobDone? || a.JobFailed? {
      FailedAfterJob(s, a);
    } else if a.SweepCheck? || a.SweepPong? || a.RefillEnter? || a.RefillSpawned? {
      FailedAfterSweep(s, a);
    }
  }

  lemma FailedAfterJob(s: Pool, a: Action)
    requires Enabled(s, a) && (a.Take? || a.JobDone? || a.JobFailed?)
    ensures Apply(s, a).failed == s.failed
  {
  }

  lemma FailedAfterSweep(s: Pool, a: Action)
    requires Enabled(s, a) && (a.SweepCheck? || a.SweepPong? || a.RefillEnter? || a.RefillSpawned?)
    ensures Apply(s, a).failed == s.failed + if FailsSpawn(a) then 1 else 0
  {
  }

  /** Only a spawn that failed is counted as failed. */
  lemma {:induction false} FailuresAreCounted(states: seq<Pool>, actions: seq<Action>, n: nat)
    requires IsRun(states, actions) && n < |states|
    ensures states[n].failed == FailedSpawns(actions, n)
  {
    hide Enabled, Apply;
    if n > 0 {
      FailuresAreCounted(states, actions, n - 1);
      assert states[n - 1 + 1] == Apply(states[n - 1], actions[n - 1]);
      FailedStep(states[n - 1], actions[n - 1]);
    } else {
      assert Init(states[0]);
    }
  }

  // ---- The queue, and the sweep's age limit ---------------------------------------------------------

  /** The idle workers form a queue: a submit takes the first, the sweep takes all in order,
      and whoever becomes idle goes to the end. */
  lemma QueueDiscipline(s: Pool, a: Action)
    requires Enabled(s, a)
    ensures a.Take? ==> Apply(s, a).free == s.free[1..]
    ensures a.Take? && !s.workers[s.free[0]].exited ==> a.call in Apply(s, a).leases && Apply(s, a).leases[a.call] == s.free[0]
    ensures a.SweepDrain? ==> Apply(s, a).free == [] && Apply(s, a).swept == s.free
    ensures a.Shutdown? ==> Apply(s, a).free == []
    ensures !a.Take? && !a.SweepDrain? && !a.Shutdown? ==> s.free <= Apply(s, a).free && |Apply(s, a).free| <= |s.free| + 1
  {
    if a.Take? {
      TakeLeases(s, a.call);
    } else if a.JobDone? || a.JobFailed? {
      hide TakeStep, SweepCheckStep, SweepPongStep, RefillEnterStep, RefillSpawnedStep;
    } else {
      hide TakeStep, JobDoneStep;
    }
  }

  /** What no step but a new spawn changes about a known worker, and no step but a drain about
      the time of the sweep. */
  lemma TimesKept(s: Pool, a: Action, w: nat)
    requires Enabled(s, a)
    ensures w in s.workers ==> w in Apply(s, a).workers && Apply(s, a).workers[w].spawnedAt == s.workers[w].spawnedAt
    ensures !a.SweepDrain? ==> Apply(s, a).sweepTime == s.sweepTime
    ensures s.closed ==> Apply(s, a).closed
    ensures w in s.workers && !s.workers[w].exited && a != Exit(w) ==> !Apply(s, a).workers[w].exited
  {
    if a.Take? || a.JobDone? || a.JobFailed? {
      TimesAfterJob(s, a, w);
    } else if a.SweepCheck? || a.SweepPong? || a.RefillEnter? || a.RefillSpawned? {
      TimesAfterSweep(s, a, w);
    }
  }

  /** The worker is known after the step, with the same times, and the sweep's clock stands. */
  ghost predicate SameTimes(s: Pool, after: Pool, w: nat) {
    && after.sweepTime == s.sweepTime && after.closed == s.closed
    && (w in s.workers ==> w in after.workers && after.workers[w].spawnedAt == s.workers[w].spawnedAt
                           && after.workers[w].exited == s.workers[w].exited)
  }

  lemma TimesAfterJob(s: Pool, a: Action, w: nat)
    requires Enabled(s, a) && (a.Take? || a.JobDone? || a.JobFailed?)
    ensures SameTimes(s, Apply(s, a), w)
  {
    hide TakeStep, JobDoneStep, Discarded, SameTimes;
    match a {
      case Take(call) => TimesAfterTake(s, call, w);
      case JobDone(call) => TimesAfterDone(s, call, w);
      case JobFailed(call) => TimesAfterFailed(s, call, w);
    }
  }

  lemma TimesAfterTake(s: Pool, call: nat, w: nat)
    requires Enabled(s, Take(call))
    ensures SameTimes(s, TakeStep(s, call), w)
  {
    hide Discarded;
    DiscardKeepsTimes(s.(free := s.free[1..]), s.free[0], w);
  }

  lemma TimesAfterDone(s: Pool, call: nat, w: nat)
    requires Enabled(s, JobDone(call))
    ensures SameTimes(s, JobDoneStep(s, call), w)
  {
    hide Discarded;
    var v := s.leases[call];
    var worker := s.workers[v].(jobs := s.workers[v].jobs + 1);
    DiscardKeepsTimes(s.(leases := s.leases - {call}, workers := s.workers[v := worker]), v, w);
  }

  lemma TimesAfterFailed(s: Pool, call: nat, w: nat)
    requires Enabled(s, JobFailed(call))
    ensures SameTimes(s, Discarded(s.(leases := s.leases - {call}), s.leases[call]), w)
  {
    hide Discarded;
    DiscardKeepsTimes(s.(leases := s.leases - {call}), s.leases[call], w);
  }

  lemma DiscardKeepsTimes(s: Pool, v: nat, w: nat)
    requires v in s.workers
    ensures SameTimes(s, Discarded(s, v), w)
  {
  }

  lemma TimesAfterSweep(s: Pool, a: Action, w: nat)
    requires Enabled(s, a) && (a.SweepCheck? || a.SweepPong? || a.RefillEnter? || a.RefillSpawned?)
    ensures w in s.workers ==> w in Apply(s, a).workers && Apply(s, a).workers[w].spawnedAt == s.workers[w].spawnedAt
    ensures Apply(s, a).sweepTime == s.sweepTime && Apply(s, a).closed == s.closed
    ensures w in s.workers ==> Apply(s, a).workers[w].exited == s.workers[w].exited
  {
  }

  lemma {:induction false} SpawnTimeKept(states: seq<Pool>, actions: seq<Action>, j: nat, k: nat, w: nat, t: int)
    requires IsRun(states, actions) && j < k < |states| && !states[k].closed && Spawns(actions[j], w, t)
    ensures w in states[k].workers && states[k].workers[w].spawnedAt == t
    ensures (forall n :: j < n < k ==> actions[n] != Exit(w)) ==> !states[k].workers[w].exited
    decreases k
  {
    hide Enabled, Apply;
    assert states[k - 1 + 1] == Apply(states[k - 1], actions[k - 1]);
    TimesKept(states[k - 1], actions[k - 1], w);
    if j + 1 < k {
      SpawnTimeKept(states, actions, j, k - 1, w, t);
    } else {
      SpawnedJoins(states[j], actions[j], w, t);
    }
  }

  lemma {:induction false} SweepTimeKept(states: seq<Pool>, actions: seq<Action>, d: nat, k: nat, now: int)
    requires IsRun(states, actions) && d < k < |states| && actions[d] == SweepDrain(now)
    requires forall n :: d < n < k ==> !actions[n].SweepDrain?
    ensures states[k].sweepTime == now
    decreases k
  {
    hide Enabled, Apply;
    assert states[k - 1 + 1] == Apply(states[k - 1], actions[k - 1]);
    if d + 1 < k {
      SweepTimeKept(states, actions, d, k - 1, now);
      TimesKept(states[k - 1], actions[k - 1], 0);
    } else {
      DrainTime(states[d], now);
    }
  }

  lemma DrainTime(s: Pool, now: int)
    requires Enabled(s, SweepDrain(now))
    ensures Apply(s, SweepDrain(now)).sweepTime == now
  {
  }

  /** The age limit: a sweep that began at `now` retires a worker spawned at `t` whose process
      never ended exactly if a limit is set and its age has reached it; otherwise it pings. */
  lemma RetiredExactly(states: seq<Pool>, actions: seq<Action>, j: nat, d: nat, k: nat, w: nat, t: int, now: int)
    requires IsRun(states, actions) && j < k && d < k < |actions| && !states[k].closed
    requires Spawns(actions[j], w, t) && forall n :: j < n < k ==> actions[n] != Exit(w)
    requires actions[d] == SweepDrain(now) && forall n :: d < n < k ==> !actions[n].SweepDrain?
    requires actions[k] == SweepCheck && states[k].swept[0] == w
    ensures w !in states[k + 1].all <==> states[k].maxAge > 0 && now - t >= states[k].maxAge
    ensures states[k + 1].pinging <==> w in states[k + 1].all
  {
    hide Enabled, Apply, Inv;
    SpawnTimeKept(states, actions, j, k, w, t);
    SweepTimeKept(states, actions, d, k, now);
    RunKeeps(states, actions, k);
    assert states[k + 1] == Apply(states[k], SweepCheck);
    SweepChecks(states[k]);
  }

  /** A worker the sweep looks at is retired exactly if its process ended or its age has
      reached the limit, and pinged otherwise. */
  lemma SweepChecks(s: Pool)
    requires Inv(s) && !s.closed && Enabled(s, SweepCheck)
    ensures s.swept != [] && s.swept[0] in s.workers
    ensures var w, after := s.swept[0], Apply(s, SweepCheck);
            && (w !in after.all <==> s.workers[w].exited || (s.maxAge > 0 && s.sweepTime - s.workers[w].spawnedAt >= s.maxAge))
            && (after.pinging <==> w in after.all)
  {
    SweptResident(s);
    hide OpenBut;
  }

  lemma SweptResident(s: Pool)
    requires Inv(s) && !s.closed && s.swept != []
    ensures s.swept[0] in s.all && s.swept[0] in s.workers && s.workers[s.swept[0]].alive
  {
    TakeSwept(s.all, s.free, s.swept, s.leases);
  }

  /** After the step a submit runs its job on `w`, and did not before. */
  predicate Hands(s: Pool, a: Action, w: nat)
    requires Enabled(s, a)
  {
    exists call :: call in Apply(s, a).leases && Apply(s, a).leases[call] == w && (call !in s.leases || s.leases[call] != w)
  }

  /** The step shows `w` unfit: its job or its ping fails, it is too old, it has served its
      jobs, or its process is found dead. */
  predicate Condemns(s: Pool, a: Action, w: nat)
    requires Enabled(s, a)
  {
    match a
    case JobFailed(call) => s.leases[call] == w
    case JobDone(call) => s.leases[call] == w && s.maxJobs > 0 && s.workers[w].jobs + 1 >= s.maxJobs
    case SweepPong(ok) => s.swept[0] == w && !ok
    case SweepCheck => s.swept[0] == w && !s.closed && (s.workers[w].exited || Aged(s, w))
    case Take(_) => s.free[0] == w && s.workers[w].exited
    case Exit(v) => v == w
    case _ => false
  }

  predicate Unfit(s: Pool, w: nat) {
    w in s.workers && (!s.workers[w].alive || s.workers[w].exited)
  }

  lemma UnfitAfterJob(s: Pool, a: Action, w: nat)
    requires Enabled(s, a) && Unfit(s, w) && (a.Take? || a.JobDone? || a.JobFailed?)
    ensures Unfit(Apply(s, a), w)
  {
  }

  lemma UnfitAfterSweep(s: Pool, a: Action, w: nat)
    requires Enabled(s, a) && Unfit(s, w) && (a.SweepCheck? || a.SweepPong? || a.RefillEnter? || a.RefillSpawned?)
    ensures Unfit(Apply(s, a), w)
  {
  }

  lemma UnfitAfterShutdown(s: Pool, w: nat)
    requires Unfit(s, w)
    ensures Unfit(ShutdownStep(s), w)
  {
  }

  lemma UnfitForever(s: Pool, a: Action, w: nat)
    requires Enabled(s, a) && Unfit(s, w)
    ensures Unfit(Apply(s, a), w)
  {
    if a.Take? || a.JobDone? || a.JobFailed? {
      UnfitAfterJob(s, a, w);
    } else if a.SweepCheck? || a.SweepPong? || a.RefillEnter? || a.RefillSpawned? {
      UnfitAfterSweep(s, a, w);
    } else if a.Shutdown? {
      UnfitAfterShutdown(s, w);
    }
  }

  lemma CondemnedIsUnfit(s: Pool, a: Action, w: nat)
    requires Enabled(s, a) && Condemns(s, a, w)
    ensures Unfit(Apply(s, a), w)
  {
  }

  lemma {:induction false} UnfitLater(states: seq<Pool>, actions: seq<Action>, i: nat, j: nat, w: nat)
    requires IsRun(states, actions) && i < j < |states| && Condemns(states[i], actions[i], w)
    ensures Unfit(states[j], w)
    decreases j
  {
    if i + 1 < j {
      UnfitLater(states, actions, i, j - 1, w);
      UnfitForever(states[j - 1], actions[j - 1], w);
    } else {
      CondemnedIsUnfit(states[i], actions[i], w);
    }
  }

  /** A worker that failed a job or a ping, aged out, wore out or died is never handed to a
      later submit of the open pool. */
  lemma NeverHandedAgain(states: seq<Pool>, actions: seq<Action>, i: nat, j: nat, w: nat)
    requires IsRun(states, actions) && i < j < |actions| && !states[j].closed
    requires Condemns(states[i], actions[i], w)
    ensures !Hands(states[j], actions[j], w)
  {
    UnfitLater(states, actions, i, j, w);
    RunKeeps(states, actions, j);
    hide IsRun;
    UnfitNotHanded(states[j], actions[j], w);
  }

  lemma UnfitNotHanded(s: Pool, a: Action, w: nat)
    requires Inv(s) && !s.closed && Enabled(s, a) && Unfit(s, w)
    ensures !Hands(s, a, w)
  {
    hide Enabled, Apply, OpenBut;
    if a.Take? {
      TakeLeases(s, a.call);
      FreeIsAlive(s);
    } else {
      LeasesOnlyEnd(s, a);
    }
  }

  /** A submit is given the first idle worker, and none whose process has ended. */
  lemma TakeLeases(s: Pool, call: nat)
    requires Enabled(s, Take(call))
    ensures s.free != [] && s.free[0] in s.workers
    ensures Apply(s, Take(call)).leases == if s.workers[s.free[0]].exited then s.leases else s.leases[call := s.free[0]]
  {
  }

  lemma FreeIsAlive(s: Pool)
    requires OpenBut(s, {}) && s.free != []
    ensures s.free[0] in s.workers && s.workers[s.free[0]].alive
  {
    TakeHead(s.all, s.free, s.swept, s.leases);
  }

  lemma LeasesOnlyEnd(s: Pool, a: Action)
    requires Enabled(s, a) && !a.Take?
    ensures forall call :: call in Apply(s, a).leases ==> call in s.leases && Apply(s, a).leases[call] == s.leases[call]
  {
  }

  lemma ApplyShutdown(s: Pool)
    ensures Enabled(s, Shutdown) && Apply(s, Shutdown) == ShutdownStep(s)
  {
    hide ShutdownStep;
  }

  // ---- The pool itself ---------------------------------------------------------------------

  class WorkerPool {
    const size: nat
    const maxJobs: nat
    const maxAge: nat
    var started: bool
    var closed: bool
    var free: seq<nat>
    var all: set<nat>
    var workers: map<nat, Worker>
    var waiting: set<nat>
    var leases: map<nat, nat>
    var swept: seq<nat>
    var sweepTime: int
    var pinging: bool
    var lock: Lock
    var startLeft: nat
    var refills: map<nat, Refill>
    var failed: nat
    var abandoned: nat

    ghost function State(): Pool
      reads this
    {
      Pool(size, maxJobs, maxAge, started, closed, free, all, workers, waiting, leases, swept,
           sweepTime, pinging, lock, startLeft, refills, failed, abandoned)
    }

    /** Negative settings count as zero. */
    constructor (poolSize: int, workerMaxJobs: int, workerMaxAge: int)
      ensures Init(State())
      ensures size == (if poolSize > 0 then poolSize else 0) && maxJobs == (if workerMaxJobs > 0 then workerMaxJobs else 0)
      ensures maxAge == if workerMaxAge > 0 then workerMaxAge else 0
    {
      size, maxJobs, maxAge := Floor(poolSize), Floor(workerMaxJobs), Floor(workerMaxAge);
      started, closed, pinging := false, false, false;
      free, swept, sweepTime := [], [], 0;
      all, waiting, workers, leases, refills := {}, {}, map[], map[], map[];
      lock, startLeft, failed, abandoned := Unlocked, 0, 0, 0;
    }

    method BeginStart()
      requires Enabled(State(), StartBegin)
      modifies this
      ensures State() == Apply(old(State()), StartBegin)
    {
      lock := HeldByStart;
      started := true;
      startLeft := size;
    }

    method ContinueStart(outcome: Spawn)
      requires Enabled(State(), StartSpawned(outcome))
      modifies this
      ensures State() == Apply(old(State()), StartSpawned(outcome))
    {
      startLeft := startLeft - 1;
      Admit(outcome);
    }

    method FinishStart()
      requires Enabled(State(), StartEnd)
      modifies this
      ensures State() == Apply(old(State()), StartEnd)
    {
      lock := Unlocked;
    }

    /** The submit that was starting the pool is cancelled. */
    method AbandonStart()
      requires Enabled(State(), StartCancelled)
      modifies this
      ensures State() == Apply(old(State()), StartCancelled)
    {
      abandoned := abandoned + startLeft;
      startLeft := 0;
      lock := Unlocked;
    }

    /** A spawned worker joins the residents and the queue; a failed spawn joins neither. */
    method Admit(outcome: Spawn)
      modifies this
      ensures State() == Admitted(old(State()), outcome)
    {
      if outcome.Warm? {
        workers := workers[outcome.id := Worker(0, true, false, outcome.now)];
        all := all + {outcome.id};
        free := free + [outcome.id];
      } else {
        failed := failed + 1;
      }
    }

    method Discard(w: nat)
      requires w in workers
      modifies this
      ensures State() == Discarded(old(State()), w)
      ensures !old(workers)[w].alive ==> State() == old(State())
      ensures old(workers)[w].alive ==>
                all == old(all) - {w} && refills == old(refills)[w := Reaping] && w in workers && !workers[w].alive && free == old(free)
    {
      if !workers[w].alive {
        return;
      }
      workers := workers[w := workers[w].(alive := false)];
      all := all - {w};
      refills := refills[w := Reaping];
    }

    method EnterSubmit(call: nat) returns (accepted: bool)
      requires !closed ==> Enabled(State(), SubmitEnter(call))
      modifies this
      ensures accepted == !old(closed)
      ensures State() == if accepted then Apply(old(State()), SubmitEnter(call)) else old(State())
    {
      if closed {
        return false;
      }
      waiting := waiting + {call};
      return true;
    }

    method GiveUp(call: nat)
      requires Enabled(State(), SubmitGiveUp(call))
      modifies this
      ensures State() == Apply(old(State()), SubmitGiveUp(call))
    {
      waiting := waiting - {call};
    }

    /** One turn of the acquire loop: a dead candidate is recycled and the submit waits on. */
    method TakeCandidate(call: nat) returns (got: bool)
      requires Enabled(State(), Take(call))
      modifies this
      ensures State() == Apply(old(State()), Take(call))
      ensures got == !old(workers[free[0]].exited)
    {
      var candidate := free[0];
      free := free[1..];
      if workers[candidate].exited {
        Discard(candidate);
        return false;
      }
      waiting := waiting - {call};
      leases := leases[call := candidate];
      return true;
    }

    method FinishJob(call: nat)
      requires Enabled(State(), JobDone(call))
      modifies this
      ensures State() == Apply(old(State()), JobDone(call))
      ensures var w, served := old(leases)[call], old(workers)[old(leases)[call]].jobs + 1;
              && leases == old(leases) - {call} && w in workers && workers[w].jobs == served
              && if 0 < maxJobs <= served then !workers[w].alive && free == old(free) else free == old(free) + [w] && all == old(all)
    {
      var worker := leases[call];
      leases := leases - {call};
      workers := workers[worker := workers[worker].(jobs := workers[worker].jobs + 1)];
      if maxJobs > 0 && workers[worker].jobs >= maxJobs {
        Discard(worker);
      } else {
        free := free + [worker];
      }
    }

    method FailJob(call: nat)
      requires Enabled(State(), JobFailed(call))
      modifies this
      ensures State() == Apply(old(State()), JobFailed(call))
    {
      var worker := leases[call];
      leases := leases - {call};
      Discard(worker);
    }

    method DrainForSweep(now: int)
      requires Enabled(State(), SweepDrain(now))
      modifies this
      ensures State() == Apply(old(State()), SweepDrain(now))
    {
      var drained: seq<nat> := [];
      while free != []
        modifies `free
        invariant drained + free == old(free)
      {
        drained := drained + [free[0]];
        free := free[1..];
      }
      swept := drained;
      sweepTime := now;
    }

    /** The checks the sweep makes before it pings a drained worker. */
    method CheckDrained()
      requires Enabled(State(), SweepCheck)
      modifies this
      ensures State() == Apply(old(State()), SweepCheck)
    {
      var worker := swept[0];
      if closed {
        swept := swept[1..];
        free := free + [worker];
      } else if workers[worker].exited {
        swept := swept[1..];
        Discard(worker);
      } else if maxAge > 0 && sweepTime - workers[worker].spawnedAt >= maxAge {
        swept := swept[1..];
        Discard(worker);
      } else {
        pinging := true;
      }
    }

    method FinishPing(ok: bool)
      requires Enabled(State(), SweepPong(ok))
      modifies this
      ensures State() == Apply(old(State()), SweepPong(ok))
      ensures swept == old(swept)[1..] && !pinging && free == if ok then old(free) + [old(swept)[0]] else old(free)
      ensures !ok ==> old(swept)[0] in workers && !workers[old(swept)[0]].alive
    {
      var worker := swept[0];
      swept := swept[1..];
      pinging := false;
      if !ok {
        Discard(worker);
      } else {
        free := free + [worker];
      }
    }

    method FinishReap(w: nat)
      requires Enabled(State(), Reaped(w))
      modifies this
      ensures State() == Apply(old(State()), Reaped(w))
    {
      if closed {
        refills := refills - {w};
      } else {
        refills := refills[w := Waiting];
      }
    }

    method EnterRefill(w: nat)
      requires Enabled(State(), RefillEnter(w))
      modifies this
      ensures State() == Apply(old(State()), RefillEnter(w))
    {
      if closed || |all| >= size {
        refills := refills - {w};
      } else {
        refills := refills[w := Spawning];
        lock := HeldByRefill(w);
      }
    }

    method FinishRefill(w: nat, outcome: Spawn)
      requires Enabled(State(), RefillSpawned(w, outcome))
      modifies this
      ensures State() == Apply(old(State()), RefillSpawned(w, outcome))
    {
      refills := refills - {w};
      lock := Unlocked;
      if !(outcome.Warm? && closed) {
        Admit(outcome);
      }
    }

    method ShutDown()
      modifies this
      ensures State() == Apply(old(State()), Shutdown)
      ensures closed && all == {} && free == [] && swept == [] && refills == old(refills) && leases == old(leases)
    {
      ApplyShutdown(State());
      hide Apply, Enabled;
      closed := true;
      swept, pinging := [], false;
      workers := Terminated(all, workers);
      all := {};
      DrainQueue();
    }

    /** The end of `shutdown`: the refill tasks still pending are cancelled. */
    method DropRefills()
      requires Enabled(State(), CancelRefills)
      modifies this
      ensures State() == Apply(old(State()), CancelRefills)
    {
      refills := map[];
      if lock.HeldByRefill? {
        lock := Unlocked;
      }
    }

    method DrainQueue()
      modifies `free
      ensures free == []
    {
      while free != [] {
        free := free[1..];
      }
    }
  }

  function Floor(setting: int): nat {
    if setting < 0 then 0 else setting
  }
}
