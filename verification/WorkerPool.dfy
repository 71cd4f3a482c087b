/**
 * The delivery worker: one batch at a time behind a running flag, shared out among workers by a common index. A step
 * is what JavaScript runs between two awaits.
 */
module WorkerPool {

  datatype Worker = InFlight(i: nat) | Stopped | Rejected(i: nat)

  /** A batch, the shared index, the workers, and the indexes claimed and completed so far in order. */
  datatype Pool = Pool(batch: seq<nat>, index: nat, workers: seq<Worker>, claims: seq<nat>, done: seq<nat>)

  function Min(a: nat, b: nat): nat { if a < b then a else b }

  /** Starting the workers runs each of them up to its first await, so each has claimed one delivery. */
  function Start(batch: seq<nat>, concurrency: nat): Pool {
    var k := Min(concurrency, |batch|);
    Pool(batch, k, seq(k, j requires 0 <= j < k => InFlight(j)), seq(k, j requires 0 <= j < k => j), [])
  }

  /** A worker whose attempt came back claims the next index or stops; one whose attempt threw is gone. */
  function Resume(p: Pool, w: nat, ok: bool): Pool
    requires w < |p.workers| && p.workers[w].InFlight?
  {
    var i := p.workers[w].i;
    if !ok then p.(workers := p.workers[w := Rejected(i)])
    else
      var current := p.index;
      var q := p.(index := current + 1, done := p.done + [i]);
      if current >= |p.batch| then q.(workers := p.workers[w := Stopped])
      else q.(workers := p.workers[w := InFlight(current)], claims := p.claims + [current])
  }

  predicate Busy(p: Pool, w: nat) {
    w < |p.workers| && p.workers[w].InFlight?
  }

  predicate Holds(p: Pool, w: nat, i: nat) {
    w < |p.workers| && (p.workers[w] == InFlight(i) || p.workers[w] == Rejected(i))
  }

  ghost predicate Held(p: Pool, i: nat) {
    exists w: nat :: Holds(p, w, i)
  }

  function Claimed(p: Pool): nat { Min(p.index, |p.batch|) }

  ghost predicate Consistent(p: Pool) {
    // Claimed in order, each index once.
    && |p.claims| == Claimed(p)
    && (forall k :: 0 <= k < |p.claims| ==> p.claims[k] == k)
    // Completed: each index at most once, and only after it was claimed.
    && (forall a :: 0 <= a < |p.done| ==> p.done[a] < Claimed(p))
    && (forall a, b :: 0 <= a < b < |p.done| ==> p.done[a] != p.done[b])
    // Held by one worker only, and not yet completed.
    && (forall w: nat, i: nat :: Holds(p, w, i) ==> i < Claimed(p) && i !in p.done)
    && (forall w: nat, v: nat, i: nat :: Holds(p, w, i) && Holds(p, v, i) ==> w == v)
    // Nothing claimed is lost.
    && (forall i: nat :: i < Claimed(p) && i !in p.done ==> Held(p, i))
    // A worker stops only once the index has run past the batch.
    && (forall w :: 0 <= w < |p.workers| && p.workers[w].Stopped? ==> p.index > |p.batch|)
  }

  lemma StartConsistent(batch: seq<nat>, concurrency: nat)
    ensures Consistent(Start(batch, concurrency))
    ensures |Start(batch, concurrency).workers| == Min(concurrency, |batch|)
  {
    var p := Start(batch, concurrency);
    forall i: nat | i < Claimed(p)
      ensures Held(p, i)
    {
      assert Holds(p, i, i);
    }
  }

  lemma ResumeConsistent(p: Pool, w: nat, ok: bool)
    requires Consistent(p) && Busy(p, w)
    ensures Consistent(Resume(p, w, ok))
  {
    var q, i := Resume(p, w, ok), p.workers[w].i;
    assert Holds(p, w, i);
    forall v: nat, j: nat | Holds(q, v, j)
      ensures j < Claimed(q) && j !in q.done
    {
      if v != w { assert Holds(p, v, j); }
    }
    forall v: nat, u: nat, j: nat | Holds(q, v, j) && Holds(q, u, j)
      ensures v == u
    {
      if v != w { assert Holds(p, v, j); }
      if u != w { assert Holds(p, u, j); }
    }
    assert forall j :: j in q.done <==> j in p.done || (ok && j == i);
    forall j: nat | j < Claimed(q) && j !in q.done
      ensures Held(q, j)
    {
      if j < Claimed(p) {
        var v: nat :| Holds(p, v, j);
        assert Holds(q, v, j);
      } else {
        assert Holds(q, w, j);
      }
    }
  }

  /** One pool on its own: any worker resumes at any time. */
  datatype Turn = Turn(worker: nat, ok: bool)

  function RunPool(p: Pool, turns: seq<Turn>): Pool
    decreases |turns|
  {
    if turns == [] then p
    else RunPool(if Busy(p, turns[0].worker) then Resume(p, turns[0].worker, turns[0].ok) else p, turns[1..])
  }

  function CountInFlight(ws: seq<Worker>): nat {
    if ws == [] then 0 else (if ws[0].InFlight? then 1 else 0) + CountInFlight(ws[1..])
  }

  lemma {:induction false} CountAfterUpdate(ws: seq<Worker>, w: nat, x: Worker)
    requires w < |ws|
    ensures CountInFlight(ws[w := x])
         == CountInFlight(ws) - (if ws[w].InFlight? then 1 else 0) + (if x.InFlight? then 1 else 0)
  {
    if w == 0 {
      assert ws[0 := x][1..] == ws[1..];
    } else {
      CountAfterUpdate(ws[1..], w - 1, x);
      assert ws[w := x][1..] == ws[1..][w - 1 := x];
    }
  }

  function Flights(k: nat, from: nat): seq<Worker> {
    seq(k, j requires 0 <= j < k => InFlight(j + from))
  }

  lemma {:induction false} CountOfStart(k: nat, from: nat)
    ensures CountInFlight(Flights(k, from)) == k
  {
    if k > 0 {
      CountOfStart(k - 1, from + 1);
      assert Flights(k, from)[1..] == Flights(k - 1, from + 1);
    }
  }

  /** What holds of every interleaving, whichever attempts throw. */
  ghost predicate Bounded(p: Pool, k: nat) {
    Consistent(p) && |p.workers| == k && CountInFlight(p.workers) <= k
  }

  /** What holds as long as no attempt has thrown. */
  ghost predicate AllBusy(p: Pool, k: nat) {
    && Consistent(p) && |p.workers| == k
    && p.index == k + |p.done|
    && CountInFlight(p.workers) == (if p.index <= |p.batch| then k else k - Min(k, p.index - |p.batch|))
    && p.index <= |p.batch| + k
    && (forall w :: 0 <= w < |p.workers| ==> !p.workers[w].Rejected?)
  }

  lemma CountBounds(ws: seq<Worker>, w: nat)
    requires w < |ws| && ws[w].InFlight?
    ensures CountInFlight(ws) >= 1
  {
    if w > 0 { CountBounds(ws[1..], w - 1); }
  }

  lemma {:induction false} RunStaysBusy(p: Pool, k: nat, turns: seq<Turn>)
    requires AllBusy(p, k)
    requires forall t :: t in turns ==> t.ok
    ensures AllBusy(RunPool(p, turns), k) && RunPool(p, turns).batch == p.batch
    decreases |turns|
  {
    if turns != [] {
      var t := turns[0];
      assert t in turns;
      if Busy(p, t.worker) {
        var q := Resume(p, t.worker, true);
        ResumeConsistent(p, t.worker, true);
        CountBounds(p.workers, t.worker);
        CountAfterUpdate(p.workers, t.worker, q.workers[t.worker]);
        RunStaysBusy(q, k, turns[1..]);
      } else {
        RunStaysBusy(p, k, turns[1..]);
      }
    }
  }

  lemma {:induction false} CountAtMost(ws: seq<Worker>)
    ensures CountInFlight(ws) <= |ws|
  {
    if ws != [] { CountAtMost(ws[1..]); }
  }

  lemma {:induction false} RunStaysBounded(p: Pool, k: nat, turns: seq<Turn>)
    requires Consistent(p) && |p.workers| == k
    ensures Bounded(RunPool(p, turns), k) && RunPool(p, turns).batch == p.batch
    decreases |turns|
  {
    hide Consistent;
    CountAtMost(p.workers);
    if turns != [] {
      var t := turns[0];
      if Busy(p, t.worker) {
        ResumeConsistent(p, t.worker, t.ok);
        RunStaysBounded(Resume(p, t.worker, t.ok), k, turns[1..]);
      } else {
        RunStaysBounded(p, k, turns[1..]);
      }
    }
  }

  /** The attempt at this delivery threw. */
  ghost predicate Threw(p: Pool, i: nat) {
    exists w :: 0 <= w < |p.workers| && p.workers[w] == Rejected(i)
  }

  /** Each index of the batch is claimed at most once, in order, and completed at most once, only after its claim. */
  ghost predicate EachOnce(p: Pool) {
    && |p.claims| <= |p.batch| && (forall n :: 0 <= n < |p.claims| ==> p.claims[n] == n)
    && (forall a :: 0 <= a < |p.done| ==> p.done[a] < |p.claims|)
    && (forall a, b :: 0 <= a < b < |p.done| ==> p.done[a] != p.done[b])
  }

  /**
   * Under any interleaving, whichever attempts throw: each index is claimed at most once and in order, at most
   * min(concurrency, n) attempts are in flight, and once nothing is in flight any more every delivery was attempted,
   * to its end or to a throw, unless every single worker threw. When all workers stopped, all attempts came to an end.
   */
  lemma PoolCoversBatch(batch: seq<nat>, concurrency: nat, turns: seq<Turn>)
    requires concurrency >= 1
    ensures var p := RunPool(Start(batch, concurrency), turns);
      && p.batch == batch && EachOnce(p)
      && |p.workers| == Min(concurrency, |batch|) && CountInFlight(p.workers) <= Min(concurrency, |batch|)
      && (CountInFlight(p.workers) == 0 ==>
            (forall i :: 0 <= i < |batch| ==> i in p.done || Threw(p, i))
            || (forall w :: 0 <= w < |p.workers| ==> p.workers[w].Rejected?))
      && (AllStopped(p) ==> forall i :: 0 <= i < |batch| ==> i in p.done)
  {
    var k := Min(concurrency, |batch|);
    StartConsistent(batch, concurrency);
    RunStaysBounded(Start(batch, concurrency), k, turns);
    var p := RunPool(Start(batch, concurrency), turns);
    hide RunPool, Start;
    if CountInFlight(p.workers) == 0 && exists w :: 0 <= w < |p.workers| && !p.workers[w].Rejected? {
      NoneInFlight(p.workers);
      ClaimedIsAttempted(p);
    }
    if AllStopped(p) && k > 0 {
      CountAllStopped(p.workers);
      assert p.workers[0].Stopped?;
      ClaimedIsAttempted(p);
    }
  }

  lemma {:induction false} NoneInFlight(ws: seq<Worker>)
    requires CountInFlight(ws) == 0
    ensures forall w :: 0 <= w < |ws| ==> !ws[w].InFlight?
  {
    if ws != [] {
      NoneInFlight(ws[1..]);
      assert forall w :: 0 < w < |ws| ==> ws[w] == ws[1..][w - 1];
    }
  }

  /** With nothing in flight and one worker stopped, the whole batch is done but for the attempts that threw. */
  lemma ClaimedIsAttempted(p: Pool)
    requires Consistent(p) && exists w :: 0 <= w < |p.workers| && p.workers[w].Stopped?
    requires forall w :: 0 <= w < |p.workers| ==> !p.workers[w].InFlight?
    ensures forall i :: 0 <= i < |p.batch| ==> i in p.done || Threw(p, i)
  {
    forall i: nat | i < |p.batch| && i !in p.done
      ensures Threw(p, i)
    {
      assert Held(p, i);
      var w: nat :| Holds(p, w, i);
      assert p.workers[w] == Rejected(i);
    }
  }

  /** While no attempt throws, the pool is as full as it can be: exactly min(concurrency, deliveries left) in flight. */
  lemma PoolStaysFull(batch: seq<nat>, concurrency: nat, turns: seq<Turn>)
    requires concurrency >= 1
    requires forall t :: t in turns ==> t.ok
    ensures var p := RunPool(Start(batch, concurrency), turns);
      |p.done| <= |batch| && CountInFlight(p.workers) == Min(Min(concurrency, |batch|), |batch| - |p.done|)
  {
    var k := Min(concurrency, |batch|);
    StartConsistent(batch, concurrency);
    CountOfStart(k, 0);
    assert Start(batch, concurrency).workers == Flights(k, 0);
    RunStaysBusy(Start(batch, concurrency), k, turns);
  }

  /** The turns of the run that find their worker in the middle of an attempt. */
  function Taken(p: Pool, turns: seq<Turn>): nat
    decreases |turns|
  {
    if turns == [] then 0
    else if Busy(p, turns[0].worker) then 1 + Taken(Resume(p, turns[0].worker, turns[0].ok), turns[1..])
    else Taken(p, turns[1..])
  }

  lemma {:induction false} RunCompletes(p: Pool, turns: seq<Turn>)
    requires forall t :: t in turns ==> t.ok
    ensures |RunPool(p, turns).done| == |p.done| + Taken(p, turns)
    decreases |turns|
  {
    if turns != [] {
      var t := turns[0];
      assert t in turns;
      RunCompletes(if Busy(p, t.worker) then Resume(p, t.worker, t.ok) else p, turns[1..]);
    }
  }

  /**
   * Progress: every turn taken completes one delivery, and as long as there are deliveries left some worker can take
   * one. So a batch is worked off in exactly as many turns as it has deliveries.
   */
  lemma EveryTurnCompletes(batch: seq<nat>, concurrency: nat, turns: seq<Turn>)
    requires concurrency >= 1
    requires forall t :: t in turns ==> t.ok
    ensures var p := RunPool(Start(batch, concurrency), turns);
      && |p.done| == Taken(Start(batch, concurrency), turns)
      && (|p.done| < |batch| <==> exists w: nat :: Busy(p, w))
  {
    RunCompletes(Start(batch, concurrency), turns);
    PoolStaysFull(batch, concurrency, turns);
    var p := RunPool(Start(batch, concurrency), turns);
    hide RunPool, Start;
    SomeoneBusyIff(p.workers);
    if i :| 0 <= i < |p.workers| && p.workers[i].InFlight? {
      assert Busy(p, i);
    }
  }

  lemma {:induction false} SomeoneBusyIff(ws: seq<Worker>)
    ensures CountInFlight(ws) > 0 <==> exists w :: 0 <= w < |ws| && ws[w].InFlight?
  {
    if ws != [] {
      SomeoneBusyIff(ws[1..]);
      if w :| 0 <= w < |ws[1..]| && ws[1..][w].InFlight? { assert ws[w + 1].InFlight?; }
      if w :| 0 < w < |ws| && ws[w].InFlight? { assert ws[1..][w - 1].InFlight?; }
    }
  }

  predicate AllStopped(p: Pool) {
    forall w :: 0 <= w < |p.workers| ==> p.workers[w].Stopped?
  }

  lemma CountAllStopped(ws: seq<Worker>)
    requires forall w :: 0 <= w < |ws| ==> ws[w].Stopped?
    ensures CountInFlight(ws) == 0
  {
  }

  // ---------- The running flag ----------

  /** The process: the flag, every pool ever started, and the deliveries whose rows are pending and due. */
  datatype Service = Service(running: bool, pools: seq<Pool>, due: set<nat>)

  datatype Event =
    | Tick(batch: seq<nat>, concurrency: nat)
    | Wake(pool: nat, worker: nat, ok: bool)
    | BecomesDue(ids: set<nat>)

  predicate Distinct(batch: seq<nat>) {
    forall a, b :: 0 <= a < b < |batch| ==> batch[a] != batch[b]
  }

  /** The query returns due rows, each once. */
  predicate PossibleBatch(s: Service, batch: seq<nat>) {
    Distinct(batch) && forall a :: 0 <= a < |batch| ==> batch[a] in s.due
  }

  /** The flag is lowered when the awaited Promise.all settles: at the first throw, or when the last worker stops. */
  function Step(s: Service, e: Event): Service {
    match e
    case Tick(batch, concurrency) =>
      if s.running || batch == [] || concurrency == 0 || !PossibleBatch(s, batch) then s
      else s.(running := true, pools := s.pools + [Start(batch, concurrency)])
    case Wake(k, w, ok) =>
      if k >= |s.pools| || !Busy(s.pools[k], w) then s
      else
        var p := s.pools[k];
        var q := Resume(p, w, ok);
        var current := s.running && k == |s.pools| - 1;
        var due := if ok && p.workers[w].i < |p.batch| then s.due - {p.batch[p.workers[w].i]} else s.due;
        Service(if current && (!ok || AllStopped(q)) then false else s.running, s.pools[k := q], due)
    case BecomesDue(ids) => s.(due := s.due + ids)
  }

  function Run(s: Service, events: seq<Event>): Service
    decreases |events|
  {
    if events == [] then s else Run(Step(s, events[0]), events[1..])
  }

  predicate Attempting(s: Service, k: nat, w: nat, id: nat) {
    k < |s.pools| && Busy(s.pools[k], w) && s.pools[k].workers[w].i < |s.pools[k].batch|
    && s.pools[k].batch[s.pools[k].workers[w].i] == id
  }

  /** The same delivery is being attempted by two workers of the process at once. */
  ghost predicate DoubleFlight(s: Service) {
    exists k: nat, w: nat, l: nat, v: nat, id: nat :: (k, w) != (l, v) && Attempting(s, k, w, id)
      && Attempting(s, l, v, id)
  }

  /** Rows of the batch that were not attempted to an end are untouched, so still pending and due. */
  ghost predicate Outstanding(p: Pool, due: set<nat>) {
    forall i :: 0 <= i < |p.batch| && i !in p.done ==> p.batch[i] in due
  }

  /** Every attempt in flight belongs to the pool the flag guards. */
  ghost predicate Guarded(s: Service) {
    forall k: nat, w: nat :: k < |s.pools| && Busy(s.pools[k], w) ==> s.running && k == |s.pools| - 1
  }

  ghost predicate PoolsInOrder(s: Service) {
    forall k :: 0 <= k < |s.pools| ==> Consistent(s.pools[k]) && Distinct(s.pools[k].batch)
  }

  ghost predicate Sound(s: Service) {
    && PoolsInOrder(s) && Guarded(s)
    && (s.running ==> s.pools != [] && Outstanding(s.pools[|s.pools| - 1], s.due))
  }

  /** A throw is harmless when no other worker of that pool is in the middle of an attempt. */
  ghost predicate Harmless(s: Service, e: Event) {
    e.Wake? && !e.ok && e.pool < |s.pools| ==> forall v: nat :: v != e.worker ==> !Busy(s.pools[e.pool], v)
  }

  ghost predicate HarmlessRun(s: Service, events: seq<Event>)
    decreases |events|
  {
    events != [] ==> Harmless(s, events[0]) && HarmlessRun(Step(s, events[0]), events[1..])
  }

  lemma GuardedHasNoDoubleFlight(s: Service)
    requires PoolsInOrder(s) && Guarded(s)
    ensures !DoubleFlight(s)
  {
    forall k: nat, w: nat, l: nat, v: nat, id: nat | Attempting(s, k, w, id) && Attempting(s, l, v, id)
      ensures (k, w) == (l, v)
    {
      var p := s.pools[k];
      assert k == l == |s.pools| - 1;
      assert Holds(p, w, p.workers[w].i) && Holds(p, v, p.workers[v].i);
      assert p.workers[v].i == p.workers[w].i;
    }
  }

  lemma TickSound(s: Service, e: Event)
    requires Sound(s) && e.Tick?
    ensures Sound(Step(s, e))
  {
    if Step(s, e) != s {
      StartConsistent(e.batch, e.concurrency);
    }
  }

  /** Only the last pool can be busy after a wake-up, and then the flag is still up. */
  lemma BusyAfterWake(s: Service, e: Event, l: nat, w: nat)
    requires Sound(s) && e.Wake? && Harmless(s, e)
    requires e.pool < |s.pools| && Busy(s.pools[e.pool], e.worker)
    requires l < |s.pools| && Busy(Step(s, e).pools[l], w)
    ensures l == e.pool && !AllStopped(Step(s, e).pools[l]) && e.ok
  {
    if w != e.worker {
      assert Busy(s.pools[l], w);
    }
  }

  lemma WakeSound(s: Service, e: Event)
    requires Sound(s) && e.Wake? && Harmless(s, e)
    ensures Sound(Step(s, e))
  {
    var t := Step(s, e);
    if e.pool < |s.pools| && Busy(s.pools[e.pool], e.worker) {
      var k := e.pool;
      var p := s.pools[k];
      var q := Resume(p, e.worker, e.ok);
      ResumeConsistent(p, e.worker, e.ok);
      assert Holds(p, e.worker, p.workers[e.worker].i);
      assert s.running && k == |s.pools| - 1;
      forall l: nat, w: nat | l < |t.pools| && Busy(t.pools[l], w)
        ensures t.running && l == |t.pools| - 1
      {
        BusyAfterWake(s, e, l, w);
      }
      if t.running {
        forall i | 0 <= i < |q.batch| && i !in q.done
          ensures q.batch[i] in t.due
        {
          assert q.done == p.done + [p.workers[e.worker].i];
          assert forall j :: j in q.done <==> j in p.done || j == p.workers[e.worker].i;
        }
      }
    }
  }

  lemma {:induction false} RunSound(s: Service, events: seq<Event>)
    requires Sound(s) && HarmlessRun(s, events)
    ensures Sound(Run(s, events))
    decreases |events|
  {
    if events != [] {
      match events[0] {
        case Tick(_, _) => TickSound(s, events[0]);
        case Wake(_, _, _) => WakeSound(s, events[0]);
        case BecomesDue(_) =>
      }
      RunSound(Step(s, events[0]), events[1..]);
    }
  }

  const IDLE := Service(false, [], {})

  /** With the running flag, and throws that are harmless, no delivery is ever in flight twice in one process. */
  lemma NoDoubleFlight(events: seq<Event>)
    requires HarmlessRun(IDLE, events)
    ensures !DoubleFlight(Run(IDLE, events))
  {
    RunSound(IDLE, events);
    GuardedHasNoDoubleFlight(Run(IDLE, events));
  }

  ghost predicate NoThrows(events: seq<Event>) {
    forall e :: e in events && e.Wake? ==> e.ok
  }

  lemma {:induction false} NoThrowsIsHarmless(s: Service, events: seq<Event>)
    requires NoThrows(events)
    ensures HarmlessRun(s, events)
    decreases |events|
  {
    if events != [] {
      assert events[0] in events;
      NoThrowsIsHarmless(Step(s, events[0]), events[1..]);
    }
  }

  /**
   * The exception, exactly: an attempt that throws lowers the flag while its pool's other workers go on. From any sound
   * state, a later cycle can then take up a delivery that is still in flight if and only if another worker of the pool
   * was in the middle of an attempt when the first one threw.
   */
  lemma ThrowExposesOthers(s: Service, k: nat, w: nat)
    requires Sound(s) && k < |s.pools| && Busy(s.pools[k], w)
    ensures (exists events :: NoThrows(events) && DoubleFlight(Run(Step(s, Wake(k, w, false)), events)))
       <==> (exists v: nat :: v != w && Busy(s.pools[k], v))
  {
    var t := Step(s, Wake(k, w, false));
    if v: nat :| v != w && Busy(s.pools[k], v) {
      var p := s.pools[k];
      var i := p.workers[v].i;
      assert Holds(p, v, i);
      var tick := Tick([p.batch[i]], 1);
      assert t.pools[k].workers[v] == InFlight(i);
      var u := Step(t, tick);
      assert u.pools[|t.pools|] == Start([p.batch[i]], 1);
      assert Attempting(u, k, v, p.batch[i]) && Attempting(u, |t.pools|, 0, p.batch[i]);
      assert DoubleFlight(u);
      assert [tick][1..] == [];
      assert Run(t, [tick]) == Run(u, []);
      assert NoThrows([tick]);
    } else {
      WakeSound(s, Wake(k, w, false));
      forall events | NoThrows(events)
        ensures !DoubleFlight(Run(t, events))
      {
        NoThrowsIsHarmless(t, events);
        RunSound(t, events);
        GuardedHasNoDoubleFlight(Run(t, events));
      }
    }
  }

  /**
   * What the end of an attempt does to the process: its delivery is due no longer unless the attempt threw, and no
   * later cycle takes it up until it comes to be due again; the flag falls if it was up for this pool and the attempt
   * threw or was its last. Pools that are not guarded any more never lower it.
   */
  lemma AttemptEnds(s: Service, k: nat, w: nat, ok: bool, id: nat, batch: seq<nat>, concurrency: nat)
    requires PoolsInOrder(s) && Attempting(s, k, w, id)
    ensures var t := Step(s, Wake(k, w, ok));
      && t.due == (if ok then s.due - {id} else s.due)
      && (ok && id in batch ==> Step(t, Tick(batch, concurrency)) == t)
      && |t.pools| == |s.pools|
      && (t.running <==> s.running && !(k == |s.pools| - 1 && (!ok || AllStopped(t.pools[k]))))
  {
    hide Consistent, Resume, AllStopped;
  }

  // ---------- Exactly when a delivery can come to be in flight twice ----------

  /** While the flag is up, the pool it guards has an attempt in flight and none that threw. */
  ghost predicate Live(s: Service) {
    s.running ==>
      (s.pools != []
       && (var p := s.pools[|s.pools| - 1];
           !AllStopped(p) && forall w :: 0 <= w < |p.workers| ==> !p.workers[w].Rejected?))
  }

  /** What holds after any run at all. */
  ghost predicate Orderly(s: Service) {
    Live(s) && PoolsInOrder(s)
  }

  lemma WakeKeepsLive(s: Service, e: Event)
    requires Live(s) && e.Wake?
    ensures Live(Step(s, e))
  {
  }

  lemma StepKeepsOrderly(s: Service, e: Event)
    requires Orderly(s)
    ensures Orderly(Step(s, e))
  {
    match e
    case Tick(batch, concurrency) =>
      hide Consistent;
      StartConsistent(batch, concurrency);
      assert batch != [] && concurrency > 0 ==> Start(batch, concurrency).workers[0].InFlight?;
    case Wake(k, w, ok) =>
      WakeKeepsLive(s, e);
      hide Consistent, Live, Resume;
      if k < |s.pools| && Busy(s.pools[k], w) {
        ResumeConsistent(s.pools[k], w, ok);
        ResumeKeepsBatch(s.pools[k], w, ok);
      }
    case BecomesDue(_) =>
  }

  lemma ResumeKeepsBatch(p: Pool, w: nat, ok: bool)
    requires Busy(p, w)
    ensures Resume(p, w, ok).batch == p.batch
  {
  }

  lemma {:induction false} RunKeepsOrderly(s: Service, events: seq<Event>)
    requires Orderly(s)
    ensures Orderly(Run(s, events))
    decreases |events|
  {
    hide Orderly, Step;
    if events != [] {
      StepKeepsOrderly(s, events[0]);
      RunKeepsOrderly(Step(s, events[0]), events[1..]);
    }
  }

  lemma StepKeepsGuarded(s: Service, e: Event)
    requires Guarded(s) && (e.Wake? ==> e.ok)
    ensures Guarded(Step(s, e))
  {
    var t := Step(s, e);
    forall k: nat, w: nat | k < |t.pools| && Busy(t.pools[k], w)
      ensures t.running && k == |t.pools| - 1
    {
      if k < |s.pools| && !(e.Wake? && e.pool == k && e.worker == w) {
        assert Busy(s.pools[k], w) || (e.Tick? && t != s);
      }
    }
  }

  lemma {:induction false} GuardedStaysSafe(s: Service, later: seq<Event>)
    requires Orderly(s) && Guarded(s) && NoThrows(later)
    ensures !DoubleFlight(Run(s, later))
    decreases |later|
  {
    hide Live, PoolsInOrder, Guarded, Step;
    if later == [] {
      GuardedHasNoDoubleFlight(s);
    } else {
      assert later[0] in later;
      StepKeepsOrderly(s, later[0]);
      StepKeepsGuarded(s, later[0]);
      GuardedStaysSafe(Step(s, later[0]), later[1..]);
    }
  }

  /** Claims and completions a pool still has before it. */
  function Work(p: Pool): nat {
    |p.batch| - Claimed(p) + CountInFlight(p.workers)
  }

  lemma ResumeLowersWork(p: Pool, w: nat)
    requires Busy(p, w)
    ensures Work(Resume(p, w, true)) < Work(p)
  {
    CountBounds(p.workers, w);
    CountAfterUpdate(p.workers, w, Resume(p, w, true).workers[w]);
  }

  /** The pool under the flag can run to its end, while all others stand still. */
  lemma Drain(s: Service) returns (later: seq<Event>)
    requires Orderly(s) && s.running
    ensures NoThrows(later)
    ensures var t := Run(s, later);
      !t.running && |t.pools| == |s.pools| && t.pools[..|s.pools| - 1] == s.pools[..|s.pools| - 1]
    decreases Work(s.pools[|s.pools| - 1])
  {
    var k := |s.pools| - 1;
    var p := s.pools[k];
    var w :| 0 <= w < |p.workers| && !p.workers[w].Stopped?;
    var e := Wake(k, w, true);
    StepKeepsOrderly(s, e);
    ResumeLowersWork(p, w);
    hide Orderly, Resume, Work, AllStopped;
    var t := Step(s, e);
    assert t.pools[k] == Resume(p, w, true) && t.pools[..k] == s.pools[..k];
    var rest: seq<Event> := [];
    if t.running {
      rest := Drain(t);
    }
    later := [e] + rest;
    assert later[1..] == rest;
  }

  /** With the flag down, a delivery that is still in flight and comes to be due can be taken up again. */
  lemma TakenAgain(s: Service, k: nat, w: nat) returns (id: nat)
    requires Orderly(s) && !s.running && k < |s.pools| && Busy(s.pools[k], w)
    ensures DoubleFlight(Run(s, [BecomesDue({id}), Tick([id], 1)]))
  {
    var p := s.pools[k];
    assert Holds(p, w, p.workers[w].i);
    id := p.batch[p.workers[w].i];
    var due := Step(s, BecomesDue({id}));
    var u := Step(due, Tick([id], 1));
    assert u.pools[|s.pools|] == Start([id], 1);
    assert Attempting(u, k, w, id) && Attempting(u, |s.pools|, 0, id);
    assert [BecomesDue({id}), Tick([id], 1)][1..] == [Tick([id], 1)];
    assert [Tick([id], 1)][1..] == [];
    assert Run(s, [BecomesDue({id}), Tick([id], 1)]) == Run(due, [Tick([id], 1)]) == u;
  }

  lemma {:induction false} RunOfBoth(s: Service, a: seq<Event>, b: seq<Event>)
    ensures Run(s, a + b) == Run(Run(s, a), b)
    decreases |a|
  {
    hide Step;
    if a == [] {
      assert a + b == b;
    } else {
      assert (a + b)[1..] == a[1..] + b;
      RunOfBoth(Step(s, a[0]), a[1..], b);
    }
  }

  lemma UnguardedIsTaken(s: Service)
    requires Orderly(s) && !Guarded(s)
    ensures exists later :: NoThrows(later) && DoubleFlight(Run(s, later))
  {
    var k: nat, w: nat :| k < |s.pools| && Busy(s.pools[k], w) && !(s.running && k == |s.pools| - 1);
    var drained: seq<Event> := [];
    if s.running {
      drained := Drain(s);
    }
    RunKeepsOrderly(s, drained);
    var t := Run(s, drained);
    assert t.pools[k] == s.pools[k] by {
      if s.running { assert t.pools[k] == t.pools[..|s.pools| - 1][k]; }
    }
    var id := TakenAgain(t, k, w);
    hide Run, DoubleFlight, Orderly;
    var last := [BecomesDue({id}), Tick([id], 1)];
    RunOfBoth(s, drained, last);
    assert NoThrows(drained + last);
  }

  /**
   * Exactly, after any run whatever, throws included: a delivery can still come to be in flight twice, although nothing
   * throws any more, if and only if some attempt in flight now lies outside the pool that the running flag guards.
   */
  lemma FlagGuardsIff(events: seq<Event>)
    ensures var s := Run(IDLE, events);
      (exists later :: NoThrows(later) && DoubleFlight(Run(s, later))) <==> !Guarded(s)
  {
    RunKeepsOrderly(IDLE, events);
    var s := Run(IDLE, events);
    hide Run, DoubleFlight, Orderly, Guarded;
    if Guarded(s) {
      forall later | NoThrows(later)
        ensures !DoubleFlight(Run(s, later))
      {
        GuardedStaysSafe(s, later);
      }
    } else {
      UnguardedIsTaken(s);
    }
  }
}
