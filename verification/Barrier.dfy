/**
 * The barrier of mm/slab_test.c (two phases) and lib/time_bench.c (one phase): a coordinator spawns one
 * thread per CPU, releases them together by a completion, and waits for them by atomic counters.  The
 * work of the two phases is that of the remote-free test: CPUs other than 0 allocate, CPU 0 frees.
 */
module Barrier {
  import opened Runs
  import opened Sums

  // An object is named by the CPU that allocates it and the place in v[] it is for.
  datatype Obj = Null | Obj(cpu: nat, i: nat)

  datatype Thread =
    | NotSpawned
    | Spawned                       // about to kzalloc v
    | Ready                         // about to atomic_inc(&tests_running)
    | Wait1                         // wait_for_completion(&completion1), or start_event
    | Phase1(i: nat)
    | Phase1Done                    // about to atomic_inc(&phase1_complete); one phase: to atomic_dec
    | Wait2                         // wait_for_completion(&completion2)
    | Phase2(c: nat, k: nat)
    | Phase2Done                    // about to atomic_dec(&tests_running)
    | Finished

  datatype Coordinator =
    | Spawn(next: nat)
    | WaitRunning
    | Complete1
    | WaitPhase1
    | Complete2
    | WaitFinish
    | Stop(next: nat)               // kthread_stop(test[next].task); kfree(test[next].v)
    | Returned
    | Aborted                       // kthread_run failed: return, with no completion ever signalled

  datatype State = State(
    twoPhases: bool,
    count: nat,
    threads: seq<Thread>,
    coord: Coordinator,
    running: int,                   // tests_running, nr_tests_running
    phase1: int,                    // phase1_complete
    event1: bool,
    event2: bool,
    v: seq<seq<Obj>>,
    vFreed: set<nat>,               // whose v[] has been freed
    live: set<Obj>,                 // allocated and not freed
    made: set<Obj>,                 // ever allocated
    fault: bool                     // an object freed twice or before its allocation, or v[] read after kfree
  )

  function Goto(s: State, t: nat, l: Thread): State
    requires t < |s.threads|
  {
    s.(threads := s.threads[t := l])
  }

  // remote_free_test_p1: one turn of the loop
  function Phase1Step(s: State, t: nat, i: nat): State
    requires t < |s.threads|
  {
    if i >= s.count then Goto(s, t, Phase1Done)
    else if t >= |s.v| || i >= |s.v[t]| || t in s.vFreed then s.(fault := true)
    else
      var p := if t != 0 then Obj(t, i) else Null;
      Goto(s, t, Phase1(i + 1)).(
        v := s.v[t := s.v[t][i := p]],
        live := if t != 0 then s.live + {p} else s.live,
        made := if t != 0 then s.made + {p} else s.made,
        fault := s.fault || p in s.made)
  }

  // remote_free_test_p2: one turn of the two nested loops
  function Phase2Step(s: State, t: nat, c: nat, k: nat): State
    requires t < |s.threads|
  {
    if t != 0 || c >= |s.threads| then Goto(s, t, Phase2Done)
    else if k >= s.count then Goto(s, t, Phase2(c + 1, 0))
    else if c >= |s.v| || k >= |s.v[c]| || c in s.vFreed then s.(fault := true)
    else
      var p := s.v[c][k];
      Goto(s, t, Phase2(c, k + 1)).(live := s.live - {p}, fault := s.fault || (p != Null && p !in s.live))
  }

  // test_func, invoke_test_on_cpu_func
  function ThreadStep(s: State, t: nat): State
    requires t < |s.threads| == |s.v|
  {
    match s.threads[t]
    case Spawned => Goto(s, t, Ready).(v := s.v[t := Nulls(s.count)])
    case Ready => Goto(s, t, Wait1).(running := s.running + 1)
    case Wait1 => if s.event1 then Goto(s, t, Phase1(0)) else s
    case Phase1(i) => Phase1Step(s, t, i)
    case Phase1Done =>
      if s.twoPhases then Goto(s, t, Wait2).(phase1 := s.phase1 + 1)
      else Goto(s, t, Finished).(running := s.running - 1)
    case Wait2 => if s.event2 then Goto(s, t, Phase2(0, 0)) else s
    case Phase2(c, k) => Phase2Step(s, t, c, k)
    case Phase2Done => Goto(s, t, Finished).(running := s.running - 1)
    case _ => s
  }

  function Nulls(n: nat): (r: seq<Obj>)
    ensures |r| == n && forall i :: 0 <= i < n ==> r[i] == Null
  {
    if n == 0 then [] else Nulls(n - 1) + [Null]
  }

  // do_concurrent_test, time_bench_run_concurrent; `fail`: kthread_run returns an error
  function CoordStep(s: State, fail: bool): State {
    match s.coord
    case Spawn(next) =>
      if next >= |s.threads| then s.(coord := WaitRunning)
      else if fail then s.(coord := Aborted)
      else Goto(s, next, Spawned).(coord := Spawn(next + 1))
    case WaitRunning => if s.running < |s.threads| then s else s.(coord := Complete1)
    case Complete1 => s.(event1 := true, coord := if s.twoPhases then WaitPhase1 else WaitFinish)
    case WaitPhase1 => if s.phase1 < |s.threads| then s else s.(coord := Complete2)
    case Complete2 => s.(event2 := true, coord := WaitFinish)
    case WaitFinish => if s.running != 0 then s else s.(coord := Stop(0))
    case Stop(next) =>
      if next >= |s.threads| then s.(coord := Returned)
      else s.(coord := Stop(next + 1), vFreed := s.vFreed + {next}, fault := s.fault || next in s.vFreed)
    case _ => s
  }

  ghost predicate Init(s: State) {
    && (forall t :: 0 <= t < |s.threads| ==> s.threads[t] == NotSpawned) && s.coord == Spawn(0)
    && s.running == 0 && s.phase1 == 0 && !s.event1 && !s.event2
    && |s.v| == |s.threads| && (forall t :: 0 <= t < |s.v| ==> s.v[t] == [])
    && s.vFreed == {} && s.live == {} && s.made == {} && !s.fault
    && (!s.twoPhases ==> s.count == 0)
  }

  ghost predicate Next(s: State, s': State) {
    && |s.v| == |s.threads|
    && ((exists t :: 0 <= t < |s.threads| && s' == ThreadStep(s, t)) || (exists fail :: s' == CoordStep(s, fail)))
  }

  ghost predicate Reachable(s: State, n: nat) {
    Reach(Init, Next, s, n)
  }

  // ---- The invariant ----

  function Rank(l: Thread): nat {
    match l
    case NotSpawned => 0
    case Spawned => 1
    case Ready => 2
    case Wait1 => 3
    case Phase1(_) => 4
    case Phase1Done => 5
    case Wait2 => 6
    case Phase2(_, _) => 7
    case Phase2Done => 8
    case Finished => 9
  }

  // What a thread adds to tests_running, and to phase1_complete.
  function InTest(l: Thread): nat {
    if 3 <= Rank(l) <= 8 then 1 else 0
  }

  function PastPhase1(l: Thread): nat {
    if Rank(l) >= 6 then 1 else 0
  }

  function CoordRank(c: Coordinator): nat {
    match c
    case Spawn(_) => 0
    case WaitRunning => 1
    case Complete1 => 2
    case WaitPhase1 => 3
    case Complete2 => 4
    case WaitFinish => 5
    case Stop(_) => 6
    case Returned => 7
    case Aborted => 0
  }

  // How far each thread is, given how far the coordinator is, and the other way round.
  ghost predicate RankOk(s: State, l: Thread) {
    var c := CoordRank(s.coord);
    && (Rank(l) >= 4 ==> s.event1) && (s.twoPhases && 7 <= Rank(l) ==> s.event2)
    && (!s.twoPhases ==> Rank(l) <= 5 || Rank(l) == 9)
    && (c >= 1 ==> Rank(l) >= 1) && (c >= 2 ==> Rank(l) >= 3) && (s.twoPhases && c >= 4 ==> Rank(l) >= 6) && (c >= 6 ==> Rank(l) == 9)
  }

  ghost predicate Ranks(s: State) {
    (forall t :: 0 <= t < |s.threads| ==> RankOk(s, s.threads[t])) && Flags(s)
  }

  // The completions, the number of phases and who has been spawned.
  ghost predicate Flags(s: State) {
    && (s.event1 <==> CoordRank(s.coord) >= 3) && (s.event2 <==> s.twoPhases && CoordRank(s.coord) >= 5)
    && (!s.twoPhases ==> !s.coord.WaitPhase1? && !s.coord.Complete2? && s.count == 0)
    && (s.coord.Spawn? ==> forall t :: 0 <= t < |s.threads| ==> (s.threads[t] == NotSpawned <==> s.coord.next <= t))
  }

  ghost predicate Counters(s: State) {
    && s.running == SumOf(InTest, s.threads)
    && (s.twoPhases ==> s.phase1 == SumOf(PastPhase1, s.threads))
  }

  // How many places of its v[] thread l has filled.
  function Progress(l: Thread, count: nat): nat {
    if l.Phase1? then (if l.i < count then l.i else count) else if Rank(l) >= 5 then count else 0
  }

  // CPU 0, at l, has been past place i of CPU t.
  predicate Gone(l: Thread, t: nat, i: nat) {
    if l.Phase2? then t < l.c || (t == l.c && i < l.k) else Rank(l) >= 8
  }

  predicate Made(s: State, o: Obj) {
    o.Obj? && 0 < o.cpu < |s.threads| && o.i < Progress(s.threads[o.cpu], s.count)
  }

  ghost predicate Objects(s: State) {
    && (forall o :: o in s.made <==> Made(s, o))
    && (forall o :: o in s.live <==> Made(s, o) && !Gone(s.threads[0], o.cpu, o.i))
  }

  predicate Entry(s: State, t: nat, i: nat, p: Obj)
    requires t < |s.threads|
  {
    p == if t != 0 && i < Progress(s.threads[t], s.count) then Obj(t, i) else Null
  }

  ghost predicate Tables(s: State) {
    && |s.v| == |s.threads|
    && (forall t :: 0 <= t < |s.threads| && Rank(s.threads[t]) >= 2 ==> |s.v[t]| == s.count)
    && (forall t, i :: 0 <= t < |s.threads| && 0 <= i < |s.v[t]| ==> Entry(s, t, i, s.v[t][i]))
  }

  ghost predicate Freed(s: State) {
    && (forall t :: t in s.vFreed ==> CoordRank(s.coord) >= 6 && t < |s.threads|)
    && (s.coord.Stop? ==> forall t :: 0 <= t < |s.threads| ==> (t in s.vFreed <==> t < s.coord.next))
    && (s.coord.Returned? ==> forall t :: 0 <= t < |s.threads| ==> t in s.vFreed)
    && !s.fault
  }

  ghost predicate Sync(s: State) {
    Ranks(s) && Counters(s) && |s.v| == |s.threads|
  }

  ghost predicate Inv(s: State) {
    Sync(s) && Objects(s) && Tables(s) && Freed(s)
  }

  lemma InitInv(s: State)
    requires Init(s)
    ensures Inv(s)
  {
    SumZero(InTest, s.threads);
    SumZero(PastPhase1, s.threads);
  }

  // ---- The counters and the completions ----

  // What a step of thread t does to the synchronisation: nothing but moving t on, and counting it.
  ghost predicate ThreadMove(s: State, s': State, t: nat) {
    && t < |s.threads| == |s'.threads| && s'.threads == s.threads[t := s'.threads[t]] && |s'.v| == |s.v|
    && s'.twoPhases == s.twoPhases && s'.coord == s.coord && s'.event1 == s.event1 && s'.event2 == s.event2
    && s'.vFreed == s.vFreed && s'.count == s.count
    && MovesOn(s, s.threads[t], s'.threads[t], s'.running - s.running, s'.phase1 - s.phase1)
  }

  ghost predicate MovesOn(s: State, l: Thread, l': Thread, running: int, phase1: int) {
    var r, r' := Rank(l), Rank(l');
    && running == InTest(l') - InTest(l) && (s.twoPhases ==> phase1 == PastPhase1(l') - PastPhase1(l))
    && (r' == r || (r' == r + 1 && r > 0 && (r == 5 ==> s.twoPhases)) || (r == 5 && r' == 9 && !s.twoPhases))
    && (r == 3 && r' == 4 ==> s.event1) && (r == 6 && r' == 7 ==> s.event2)
  }

  lemma Phase1StepMoves(s: State, t: nat, i: nat)
    requires t < |s.threads| == |s.v| && s.threads[t] == Phase1(i)
    ensures ThreadMove(s, Phase1Step(s, t, i), t)
  {
    hide MovesOn, Rank, ThreadMove, Phase1Step;
    Phase1Places(s, i);
    var l' := Phase1Place(s, t, i);
    MoveByPlace(s, Phase1Step(s, t, i), t, l');
  }

  lemma Phase1Place(s: State, t: nat, i: nat) returns (l': Thread)
    requires t < |s.threads| == |s.v| && s.threads[t] == Phase1(i)
    ensures l' == Phase1(i) || l' == Phase1(i + 1) || l' == Phase1Done
    ensures SyncSame(s, Phase1Step(s, t, i)) && Phase1Step(s, t, i).threads == s.threads[t := l']
  {
    StaysPut(s.threads, t);
    l' := if i >= s.count then Phase1Done
          else if t >= |s.v| || i >= |s.v[t]| || t in s.vFreed then Phase1(i)
          else Phase1(i + 1);
  }

  lemma Phase1Places(s: State, i: nat)
    ensures MovesOn(s, Phase1(i), Phase1(i), 0, 0) && MovesOn(s, Phase1(i), Phase1(i + 1), 0, 0)
    ensures MovesOn(s, Phase1(i), Phase1Done, 0, 0)
  {
  }

  lemma Phase2StepMoves(s: State, t: nat, c: nat, k: nat)
    requires t < |s.threads| == |s.v| && s.threads[t] == Phase2(c, k)
    ensures ThreadMove(s, Phase2Step(s, t, c, k), t)
  {
    hide MovesOn, Rank, ThreadMove, Phase2Step;
    Phase2Places(s, c, k);
    var l' := Phase2Place(s, t, c, k);
    MoveByPlace(s, Phase2Step(s, t, c, k), t, l');
  }

  lemma Phase2Place(s: State, t: nat, c: nat, k: nat) returns (l': Thread)
    requires t < |s.threads| == |s.v| && s.threads[t] == Phase2(c, k)
    ensures l' == Phase2(c, k) || l' == Phase2(c, k + 1) || l' == Phase2(c + 1, 0) || l' == Phase2Done
    ensures SyncSame(s, Phase2Step(s, t, c, k)) && Phase2Step(s, t, c, k).threads == s.threads[t := l']
  {
    StaysPut(s.threads, t);
    l' := if t != 0 || c >= |s.threads| then Phase2Done
          else if k >= s.count then Phase2(c + 1, 0)
          else if c >= |s.v| || k >= |s.v[c]| || c in s.vFreed then Phase2(c, k)
          else Phase2(c, k + 1);
  }

  lemma StaysPut(threads: seq<Thread>, t: nat)
    requires t < |threads|
    ensures threads[t := threads[t]] == threads
  {
  }

  // Nothing that the synchronisation reads differs, apart from where the threads are.
  predicate SyncSame(s: State, s': State) {
    && |s'.v| == |s.v| && s'.twoPhases == s.twoPhases && s'.coord == s.coord && s'.event1 == s.event1
    && s'.event2 == s.event2 && s'.vFreed == s.vFreed && s'.count == s.count
    && s'.running == s.running && s'.phase1 == s.phase1
  }

  // A step that changes no counter and nothing else that the synchronisation reads.
  lemma MoveByPlace(s: State, s': State, t: nat, l': Thread)
    requires t < |s.threads| && s'.threads == s.threads[t := l'] && SyncSame(s, s')
    requires MovesOn(s, s.threads[t], l', 0, 0)
    ensures ThreadMove(s, s', t)
  {
    hide MovesOn;
  }

  lemma Phase2Places(s: State, c: nat, k: nat)
    ensures MovesOn(s, Phase2(c, k), Phase2(c, k), 0, 0) && MovesOn(s, Phase2(c, k), Phase2(c, k + 1), 0, 0)
    ensures MovesOn(s, Phase2(c, k), Phase2(c + 1, 0), 0, 0) && MovesOn(s, Phase2(c, k), Phase2Done, 0, 0)
  {
  }

  lemma CountingStepMoves(s: State, t: nat)
    requires t < |s.threads| == |s.v|
    requires s.threads[t] == Ready || s.threads[t] == Phase1Done || s.threads[t] == Phase2Done
    ensures ThreadMove(s, ThreadStep(s, t), t)
  {
  }

  lemma WaitingStepMoves(s: State, t: nat)
    requires t < |s.threads| == |s.v|
    requires s.threads[t] == Spawned || s.threads[t] == Wait1 || s.threads[t] == Wait2
    ensures ThreadMove(s, ThreadStep(s, t), t)
  {
  }

  lemma ThreadStepMoves(s: State, t: nat)
    requires t < |s.threads| == |s.v|
    ensures ThreadMove(s, ThreadStep(s, t), t)
  {
    match s.threads[t]
    case Phase1(i) => Phase1StepMoves(s, t, i);
    case Phase2(c, k) => Phase2StepMoves(s, t, c, k);
    case NotSpawned =>
    case Finished =>
    case Spawned => WaitingStepMoves(s, t);
    case Wait1 => WaitingStepMoves(s, t);
    case Wait2 => WaitingStepMoves(s, t);
    case _ => CountingStepMoves(s, t);
  }

  lemma ThreadKeepsSync(s: State, s': State, t: nat)
    requires Sync(s) && ThreadMove(s, s', t)
    ensures Sync(s')
  {
    SumUpdate(InTest, s.threads, t, s'.threads[t]);
    SumUpdate(PastPhase1, s.threads, t, s'.threads[t]);
    assert RankOk(s, s.threads[t]);
    forall u | 0 <= u < |s'.threads| ensures RankOk(s', s'.threads[u]) { assert RankOk(s, s.threads[u]); }
  }

  /** When tests_running has reached the number of CPUs, every thread is waiting. */
  lemma AllRunning(s: State, t: nat)
    requires Sync(s) && s.running >= |s.threads| && t < |s.threads|
    ensures Rank(s.threads[t]) >= 3
  {
    SumAllOnes(InTest, s.threads);
  }

  lemma AllPastPhase1(s: State, t: nat)
    requires Sync(s) && s.twoPhases && s.phase1 >= |s.threads| && t < |s.threads|
    ensures Rank(s.threads[t]) >= 6
  {
    SumAllOnes(PastPhase1, s.threads);
  }

  /** When it is back at 0, every thread has finished. */
  lemma AllFinished(s: State, t: nat)
    requires Sync(s) && s.coord.WaitFinish? && s.running == 0 && t < |s.threads|
    ensures Rank(s.threads[t]) == 9
  {
    SumMember(InTest, s.threads, t);
    assert RankOk(s, s.threads[t]);
  }

  lemma CoordKeepsRanks(s: State, s': State, fail: bool, t: nat)
    requires Sync(s) && s' == CoordStep(s, fail) && t < |s.threads|
    ensures |s'.threads| == |s.threads| && RankOk(s', s'.threads[t])
  {
    assert RankOk(s, s.threads[t]);
    if s.coord.WaitRunning? && s.running >= |s.threads| { AllRunning(s, t); }
    if s.coord.WaitPhase1? && s.phase1 >= |s.threads| { AllPastPhase1(s, t); }
    if s.coord.WaitFinish? && s.running == 0 { AllFinished(s, t); }
  }

  lemma CoordKeepsSync(s: State, s': State, fail: bool)
    requires Sync(s) && s' == CoordStep(s, fail)
    ensures Sync(s')
  {
    hide Counters, RankOk, Rank;
    CoordKeepsCounters(s, s', fail);
    CoordKeepsFlags(s, s', fail);
    forall t | 0 <= t < |s'.threads| ensures RankOk(s', s'.threads[t]) { CoordKeepsRanks(s, s', fail, t); }
  }

  lemma CoordKeepsFlags(s: State, s': State, fail: bool)
    requires Flags(s) && s' == CoordStep(s, fail)
    ensures Flags(s')
  {
  }

  lemma CoordKeepsCounters(s: State, s': State, fail: bool)
    requires Sync(s) && s' == CoordStep(s, fail)
    ensures Counters(s') && |s'.v| == |s'.threads| == |s.threads|
  {
    if s.coord.Spawn? && s.coord.next < |s.threads| && !fail {
      SpawnCounts(s.threads, s.coord.next);
    } else {
      assert s'.threads == s.threads;
    }
  }

  lemma SpawnCounts(threads: seq<Thread>, t: nat)
    requires t < |threads| && threads[t] == NotSpawned
    ensures SumOf(InTest, threads[t := Spawned]) == SumOf(InTest, threads)
    ensures SumOf(PastPhase1, threads[t := Spawned]) == SumOf(PastPhase1, threads)
  {
    SumUpdate(InTest, threads, t, Spawned);
    SumUpdate(PastPhase1, threads, t, Spawned);
  }

  // ---- The objects ----

  /** While some thread is in phase 1, or before it, no thread has begun phase 2. */
  lemma Phase1Apart(s: State, t: nat, u: nat)
    requires Ranks(s) && s.twoPhases && t < |s.threads| && u < |s.threads| && Rank(s.threads[t]) <= 5
    ensures Rank(s.threads[u]) <= 6
  {
    assert RankOk(s, s.threads[t]) && RankOk(s, s.threads[u]);
  }

  // A step that neither fills a table nor frees an object.
  ghost predicate Quiet(s: State, s': State, t: nat) {
    && t < |s.threads| == |s'.threads| == |s.v| == |s'.v| && s'.threads == s.threads[t := s'.threads[t]]
    && s'.live == s.live && s'.made == s.made && s'.count == s.count && s'.v == s.v[t := s'.v[t]]
    && Progress(s'.threads[t], s.count) == Progress(s.threads[t], s.count)
    && (s'.v[t] == s.v[t] || (s'.v[t] == Nulls(s.count) && Progress(s.threads[t], s.count) == 0))
    && (Rank(s'.threads[t]) >= 2 ==> |s'.v[t]| == s.count)
    && (forall u: nat, i: nat :: 0 < u < |s.threads| && i < s.count ==> (Gone(s'.threads[0], u, i) <==> Gone(s.threads[0], u, i)))
  }

  lemma QuietKeepsObjects(s: State, s': State, t: nat)
    requires Objects(s) && Tables(s) && Quiet(s, s', t)
    ensures Objects(s') && Tables(s')
  {
    forall o ensures Made(s', o) <==> Made(s, o) {}
    forall o | Made(s, o) ensures Gone(s'.threads[0], o.cpu, o.i) <==> Gone(s.threads[0], o.cpu, o.i) {}
    forall u, i | 0 <= u < |s.threads| && 0 <= i < |s'.v[u]| ensures Entry(s', u, i, s'.v[u][i]) {
      if s'.v[u] == s.v[u] { assert Entry(s, u, i, s.v[u][i]); }
    }
  }

  // A step of the coordinator after the spawning touches no thread and no object.
  lemma CoordKeepsObjects(s: State, s': State, fail: bool)
    requires Objects(s) && Tables(s) && Ranks(s) && s' == CoordStep(s, fail)
    ensures Objects(s') && Tables(s')
  {
    hide Objects, Tables, RankOk, Quiet;
    if s.coord.Spawn? && s.coord.next < |s.threads| && !fail {
      SpawnIsQuiet(s, s', fail);
      QuietKeepsObjects(s, s', s.coord.next);
    } else {
      SameObjects(s, s');
    }
  }

  lemma SpawnIsQuiet(s: State, s': State, fail: bool)
    requires Flags(s) && Tables(s) && s.coord.Spawn? && s.coord.next < |s.threads| && !fail && s' == CoordStep(s, fail)
    ensures Quiet(s, s', s.coord.next)
  {
    assert s.threads[s.coord.next] == NotSpawned;
    assert s'.v == s.v[s.coord.next := s'.v[s.coord.next]];
  }

  lemma SameObjects(s: State, s': State)
    requires Objects(s) && Tables(s) && s'.threads == s.threads && s'.v == s.v && s'.count == s.count
    requires s'.live == s.live && s'.made == s.made
    ensures Objects(s') && Tables(s')
  {
    forall o ensures Made(s', o) <==> Made(s, o) {}
    forall t, i | 0 <= t < |s.threads| && 0 <= i < |s.v[t]| ensures Entry(s', t, i, s.v[t][i]) { assert Entry(s, t, i, s.v[t][i]); }
  }

  lemma CoordKeepsFreed(s: State, s': State, fail: bool)
    requires Freed(s) && s' == CoordStep(s, fail)
    ensures Freed(s')
  {
    if s.coord.Stop? { StopKeepsFreed(s, s', fail); }
  }

  lemma StopKeepsFreed(s: State, s': State, fail: bool)
    requires Freed(s) && s.coord.Stop? && s' == CoordStep(s, fail)
    ensures Freed(s')
  {
  }

  // CPU t fills place i of its table.
  lemma FillKeepsObjects(s: State, s': State, t: nat, i: nat)
    requires Inv(s) && t < |s.threads| && s.threads[t] == Phase1(i) && i < s.count && s' == Phase1Step(s, t, i)
    ensures Objects(s') && Tables(s') && !s'.fault
  {
    assert RankOk(s, s.threads[t]) && t !in s.vFreed;
    assert s.twoPhases;
    Phase1Apart(s, t, 0);
    forall o ensures Made(s', o) <==> Made(s, o) || (t != 0 && o == Obj(t, i)) {}
    assert !Made(s, Obj(t, i));
    forall u, j | 0 <= u < |s'.threads| && 0 <= j < |s'.v[u]| ensures Entry(s', u, j, s'.v[u][j]) {
      assert Entry(s, u, j, s.v[u][j]);
    }
  }

  // CPU 0 frees place k of CPU c's table.
  lemma FreeKeepsObjects(s: State, s': State, c: nat, k: nat)
    requires Inv(s) && 0 < |s.threads| && s.threads[0] == Phase2(c, k) && c < |s.threads| && k < s.count
    requires s' == Phase2Step(s, 0, c, k)
    ensures Objects(s') && Tables(s') && !s'.fault
  {
    assert RankOk(s, s.threads[0]) && RankOk(s, s.threads[c]) && c !in s.vFreed;
    assert Entry(s, c, k, s.v[c][k]);
    var p := s.v[c][k];
    assert p != Null ==> p == Obj(c, k) && Made(s, p) && !Gone(s.threads[0], c, k);
    forall o ensures Made(s', o) <==> Made(s, o) {}
    forall u, j | 0 <= u < |s'.threads| && 0 <= j < |s'.v[u]| ensures Entry(s', u, j, s'.v[u][j]) {
      assert Entry(s, u, j, s.v[u][j]);
    }
  }

  // The steps of a thread that are neither.
  lemma OtherKeepsObjects(s: State, s': State, t: nat)
    requires Inv(s) && t < |s.threads| && s' == ThreadStep(s, t) && ThreadMove(s, s', t)
    requires s.threads[t].Phase1? ==> s.threads[t].i >= s.count
    requires s.threads[t].Phase2? ==> t != 0 || s.threads[t].c >= |s.threads| || s.threads[t].k >= s.count
    ensures Objects(s') && Tables(s') && !s'.fault
  {
    assert RankOk(s, s.threads[t]);
    assert |s'.v| == |s.v| && s'.v == s.v[t := s'.v[t]];
    GoneSame(s, s', t);
    QuietKeepsObjects(s, s', t);
  }

  lemma GoneSame(s: State, s': State, t: nat)
    requires Inv(s) && t < |s.threads| && s' == ThreadStep(s, t) && ThreadMove(s, s', t)
    requires s.threads[t].Phase2? ==> t != 0 || s.threads[t].c >= |s.threads| || s.threads[t].k >= s.count
    ensures forall u: nat, i: nat :: 0 < u < |s.threads| && i < s.count ==> (Gone(s'.threads[0], u, i) <==> Gone(s.threads[0], u, i))
  {
    if t == 0 { assert RankOk(s, s.threads[0]); }
  }

  lemma ThreadKeepsInv(s: State, s': State, t: nat)
    requires Inv(s) && t < |s.threads| && s' == ThreadStep(s, t)
    ensures Inv(s')
  {
    ThreadStepMoves(s, t);
    assert Sync(s') by { ThreadKeepsSync(s, s', t); }
    var l := s.threads[t];
    if l.Phase1? && l.i < s.count {
      FillKeepsObjects(s, s', t, l.i);
    } else if l.Phase2? && t == 0 && l.c < |s.threads| && l.k < s.count {
      FreeKeepsObjects(s, s', l.c, l.k);
    } else {
      OtherKeepsObjects(s, s', t);
    }
  }

  lemma CoordKeepsInv(s: State, s': State, fail: bool)
    requires Inv(s) && s' == CoordStep(s, fail)
    ensures Inv(s')
  {
    assert Sync(s') by { CoordKeepsSync(s, s', fail); }
    assert Objects(s') && Tables(s') by { CoordKeepsObjects(s, s', fail); }
    assert Freed(s') by { CoordKeepsFreed(s, s', fail); }
  }

  lemma ReachableInv(s: State, n: nat)
    requires Reachable(s, n)
    ensures Inv(s)
  {
    forall a | Init(a) ensures Inv(a) { InitInv(a); }
    forall a, b | Inv(a) && Next(a, b) ensures Inv(b) {
      if t :| 0 <= t < |a.threads| && b == ThreadStep(a, t) {
        ThreadKeepsInv(a, b, t);
      } else {
        var fail :| b == CoordStep(a, fail);
        CoordKeepsInv(a, b, fail);
      }
    }
    Induct(Init, Next, Inv, s, n);
  }

  // ---- What the barrier promises ----

  /** No thread is in phase 1 before all are running, and none in phase 2 before all have finished phase 1. */
  lemma PhasesApart(s: State, n: nat, t: nat, u: nat)
    requires Reachable(s, n) && t < |s.threads| && u < |s.threads|
    ensures Rank(s.threads[t]) >= 4 ==> Rank(s.threads[u]) >= 3
    ensures s.twoPhases && Rank(s.threads[t]) >= 7 ==> Rank(s.threads[u]) >= 6
  {
    ReachableInv(s, n);
    assert RankOk(s, s.threads[t]) && RankOk(s, s.threads[u]);
  }

  /** The coordinator stops the threads and frees their tables only when all of them have finished. */
  lemma FreesAfterAll(s: State, n: nat, t: nat)
    requires Reachable(s, n) && t < |s.threads| && (s.vFreed != {} || s.coord.Stop? || s.coord.Returned?)
    ensures s.threads[t] == Finished
  {
    ReachableInv(s, n);
    assert RankOk(s, s.threads[t]);
    if s.vFreed != {} { var c :| c in s.vFreed; }
  }

  /** The coordinator gives up exactly when a thread cannot be started. */
  lemma AbortsIff(s: State, fail: bool)
    requires s.coord != Aborted
    ensures CoordStep(s, fail).coord == Aborted <==> s.coord.Spawn? && s.coord.next < |s.threads| && fail
  {
  }

  /** When a thread cannot be started the coordinator returns at once, and no thread ever enters phase 1. */
  lemma AbortedStaysPut(s: State, n: nat, t: nat)
    requires Reachable(s, n) && s.coord == Aborted && t < |s.threads|
    ensures Rank(s.threads[t]) <= 3 && s.made == {}
  {
    ReachableInv(s, n);
    assert RankOk(s, s.threads[t]);
    forall o ensures o !in s.made {
      if o.Obj? && o.cpu < |s.threads| { assert RankOk(s, s.threads[o.cpu]); }
    }
  }

  /**
   * In the remote-free test no object is freed twice or before its allocation, no table is read after it
   * has been freed, and at the end every object that was allocated has been freed, and every table.
   */
  lemma RemoteFreeBalanced(s: State, n: nat)
    requires Reachable(s, n)
    ensures !s.fault && s.live <= s.made
    ensures s.coord == Returned && |s.threads| > 0 ==> s.live == {}
    ensures s.coord == Returned && s.twoPhases ==>
              forall o :: o in s.made <==> o.Obj? && 0 < o.cpu < |s.threads| && o.i < s.count
    ensures s.coord == Returned ==> forall t :: t in s.vFreed <==> 0 <= t < |s.threads|
  {
    ReachableInv(s, n);
    if s.coord == Returned {
      forall t | 0 <= t < |s.threads| ensures s.threads[t] == Finished { assert RankOk(s, s.threads[t]); }
    }
  }

  // ---- Progress ----

  // The turns of phase 2 that CPU 0 has left from the start of CPU c's table on.
  function TurnsFrom(c: nat, threads: nat, count: nat): nat
    decreases if c < threads then threads - c else 0
  {
    if c >= threads then 0 else TurnsFrom(c + 1, threads, count) + count + 1
  }

  function Left(i: nat, n: nat): nat {
    if i < n then n - i else 0
  }

  // A bound on the steps that a thread, and the coordinator, have before them.
  function ThreadWork(l: Thread, threads: nat, count: nat): nat {
    var phase2 := TurnsFrom(0, threads, count);
    match l
    case Finished => 0
    case Phase2Done => 1
    case Phase2(c, k) => 2 + if c >= threads then 0 else TurnsFrom(c + 1, threads, count) + Left(k, count) + 1
    case Wait2 => 3 + phase2
    case Phase1Done => 4 + phase2
    case Phase1(i) => 5 + phase2 + Left(i, count)
    case Wait1 => 6 + phase2 + count
    case Ready => 7 + phase2 + count
    case Spawned => 8 + phase2 + count
    case NotSpawned => 9 + phase2 + count
  }

  function CoordWork(c: Coordinator, threads: nat): nat {
    match c
    case Spawn(next) => 8 + threads + Left(next, threads)
    case WaitRunning => 7 + threads
    case Complete1 => 6 + threads
    case WaitPhase1 => 5 + threads
    case Complete2 => 4 + threads
    case WaitFinish => 3 + threads
    case Stop(next) => 1 + Left(next, threads)
    case Returned => 0
    case Aborted => 0
  }

  function WorkOf(threads: nat, count: nat): Thread -> nat {
    l => ThreadWork(l, threads, count)
  }

  function Work(s: State): nat {
    SumOf(WorkOf(|s.threads|, s.count), s.threads) + CoordWork(s.coord, |s.threads|)
  }

  lemma ThreadLowersWork(s: State, s': State, t: nat)
    requires t < |s.threads| == |s.v| && s' == ThreadStep(s, t) && s' != s && !s'.fault
    ensures Work(s') < Work(s)
  {
    hide SumOf, ThreadWork, Follows, ThreadStep;
    ThreadStepMoves(s, t);
    ThreadFollows(s, s', t);
    FollowerHasLess(s.threads[t], s'.threads[t], |s.threads|, s.count);
    SumUpdate(WorkOf(|s.threads|, s.count), s.threads, t, s'.threads[t]);
  }

  // The place after l, in a test on so many CPUs with so many objects each.
  predicate Follows(l: Thread, l': Thread, threads: nat, count: nat) {
    match l
    case Spawned => l' == Ready
    case Ready => l' == Wait1
    case Wait1 => l' == Phase1(0)
    case Phase1(i) => l' == if i < count then Phase1(i + 1) else Phase1Done
    case Phase1Done => l' == Wait2 || l' == Finished
    case Wait2 => l' == Phase2(0, 0)
    case Phase2(c, k) =>
      l' == Phase2Done || (c < threads && l' == if k < count then Phase2(c, k + 1) else Phase2(c + 1, 0))
    case Phase2Done => l' == Finished
    case _ => false
  }

  lemma ThreadFollows(s: State, s': State, t: nat)
    requires t < |s.threads| == |s.v| && s' == ThreadStep(s, t) && s' != s && !s'.fault
    ensures t < |s'.threads| && Follows(s.threads[t], s'.threads[t], |s.threads|, s.count)
  {
    hide Phase1Step, Phase2Step, Follows;
    match s.threads[t] {
      case Phase1(i) => Phase1Follows(s, s', t, i);
      case Phase2(c, k) => Phase2Follows(s, s', t, c, k);
      case _ => OtherFollows(s, s', t);
    }
  }

  lemma Phase1Follows(s: State, s': State, t: nat, i: nat)
    requires t < |s.threads| && s.threads[t] == Phase1(i) && s' == Phase1Step(s, t, i) && !s'.fault
    ensures t < |s'.threads| && Follows(s.threads[t], s'.threads[t], |s.threads|, s.count)
  {
  }

  lemma Phase2Follows(s: State, s': State, t: nat, c: nat, k: nat)
    requires t < |s.threads| && s.threads[t] == Phase2(c, k) && s' == Phase2Step(s, t, c, k) && !s'.fault
    ensures t < |s'.threads| && Follows(s.threads[t], s'.threads[t], |s.threads|, s.count)
  {
  }

  lemma OtherFollows(s: State, s': State, t: nat)
    requires t < |s.threads| == |s.v| && s' == ThreadStep(s, t) && s' != s
    requires !s.threads[t].Phase1? && !s.threads[t].Phase2?
    ensures t < |s'.threads| && Follows(s.threads[t], s'.threads[t], |s.threads|, s.count)
  {
    hide Nulls, Follows;
    match s.threads[t] {
      case Wait1 => WaiterFollows(s, s', t);
      case Wait2 => WaiterFollows(s, s', t);
      case Spawned => StarterFollows(s, s', t);
      case Ready => StarterFollows(s, s', t);
      case Phase1Done => DoneFollows(s, s', t);
      case Phase2Done => DoneFollows(s, s', t);
      case _ =>
    }
  }

  lemma WaiterFollows(s: State, s': State, t: nat)
    requires t < |s.threads| == |s.v| && s' == ThreadStep(s, t) && s' != s && (s.threads[t].Wait1? || s.threads[t].Wait2?)
    ensures t < |s'.threads| && Follows(s.threads[t], s'.threads[t], |s.threads|, s.count)
  {
  }

  lemma StarterFollows(s: State, s': State, t: nat)
    requires t < |s.threads| == |s.v| && s' == ThreadStep(s, t) && (s.threads[t].Spawned? || s.threads[t].Ready?)
    ensures t < |s'.threads| && Follows(s.threads[t], s'.threads[t], |s.threads|, s.count)
  {
    hide Nulls;
  }

  lemma DoneFollows(s: State, s': State, t: nat)
    requires t < |s.threads| == |s.v| && s' == ThreadStep(s, t) && (s.threads[t].Phase1Done? || s.threads[t].Phase2Done?)
    ensures t < |s'.threads| && Follows(s.threads[t], s'.threads[t], |s.threads|, s.count)
  {
  }

  lemma FollowerHasLess(l: Thread, l': Thread, threads: nat, count: nat)
    requires Follows(l, l', threads, count)
    ensures ThreadWork(l', threads, count) < ThreadWork(l, threads, count)
  {
    if l.Phase2? { TurnsLeft(l.c + 1, threads, count); }
    TurnsLeft(0, threads, count);
  }

  lemma TurnsLeft(c: nat, threads: nat, count: nat)
    ensures TurnsFrom(c, threads, count) == if c >= threads then 0 else TurnsFrom(c + 1, threads, count) + count + 1
  {
  }

  lemma CoordLowersWork(s: State, s': State, fail: bool)
    requires s' == CoordStep(s, fail) && s' != s
    requires s.coord.Spawn? && s.coord.next < |s.threads| ==> s.threads[s.coord.next] == NotSpawned
    ensures Work(s') < Work(s)
  {
    hide SumOf, CoordWork, ThreadWork, WorkOf;
    CoordComesNearer(s, s', fail);
    if s'.threads != s.threads {
      SumUpdate(WorkOf(|s.threads|, s.count), s.threads, s.coord.next, Spawned);
      SpawnedHasLess(|s.threads|, s.count);
    }
  }

  lemma CoordComesNearer(s: State, s': State, fail: bool)
    requires s' == CoordStep(s, fail) && s' != s
    ensures s'.count == s.count && |s'.threads| == |s.threads|
    ensures CoordWork(s'.coord, |s.threads|) < CoordWork(s.coord, |s.threads|)
    ensures s'.threads != s.threads ==>
              s.coord.Spawn? && s.coord.next < |s.threads| && s'.threads == s.threads[s.coord.next := Spawned]
  {
    hide CoordStep, CoordWork;
    match s.coord {
      case Spawn(_) => SpawnerComesNearer(s, s', fail);
      case Stop(_) => StopperComesNearer(s, s', fail);
      case WaitRunning => WaiterComesNearer(s, s', fail);
      case WaitPhase1 => WaiterComesNearer(s, s', fail);
      case WaitFinish => WaiterComesNearer(s, s', fail);
      case _ => SignalComesNearer(s, s', fail);
    }
  }

  lemma SpawnerComesNearer(s: State, s': State, fail: bool)
    requires s.coord.Spawn? && s' == CoordStep(s, fail)
    ensures s'.count == s.count && |s'.threads| == |s.threads|
    ensures CoordWork(s'.coord, |s.threads|) < CoordWork(s.coord, |s.threads|)
    ensures s'.threads == s.threads || (s.coord.next < |s.threads| && s'.threads == s.threads[s.coord.next := Spawned])
  {
  }

  lemma StopperComesNearer(s: State, s': State, fail: bool)
    requires s.coord.Stop? && s' == CoordStep(s, fail)
    ensures s'.count == s.count && s'.threads == s.threads
    ensures CoordWork(s'.coord, |s.threads|) < CoordWork(s.coord, |s.threads|)
  {
  }

  lemma WaiterComesNearer(s: State, s': State, fail: bool)
    requires (s.coord.WaitRunning? || s.coord.WaitPhase1? || s.coord.WaitFinish?) && s' == CoordStep(s, fail) && s' != s
    ensures s'.count == s.count && s'.threads == s.threads
    ensures CoordWork(s'.coord, |s.threads|) < CoordWork(s.coord, |s.threads|)
  {
  }

  lemma SignalComesNearer(s: State, s': State, fail: bool)
    requires s.coord.Complete1? || s.coord.Complete2? || s.coord.Returned? || s.coord.Aborted?
    requires s' == CoordStep(s, fail) && s' != s
    ensures s'.count == s.count && s'.threads == s.threads
    ensures CoordWork(s'.coord, |s.threads|) < CoordWork(s.coord, |s.threads|)
  {
  }

  lemma SpawnedHasLess(threads: nat, count: nat)
    ensures WorkOf(threads, count)(Spawned) < WorkOf(threads, count)(NotSpawned)
  {
  }

  /** Every step that changes anything lowers the work left, so no run changes state for ever. */
  lemma StepsLowerWork(s: State, n: nat, s': State)
    requires Reachable(s, n) && Next(s, s') && s' != s
    ensures Work(s') < Work(s)
  {
    hide Reachable, Work, Objects, Tables, Freed;
    ReachableInv(s, n);
    if t :| 0 <= t < |s.threads| && s' == ThreadStep(s, t) {
      ThreadKeepsInv(s, s', t);
      NoFault(s');
      ThreadLowersWork(s, s', t);
    } else {
      var fail :| s' == CoordStep(s, fail);
      CoordLowersWork(s, s', fail);
    }
  }

  lemma NoFault(s: State)
    requires Inv(s)
    ensures !s.fault
  {
  }

  // The coordinator, or a thread, can take a step that changes the state.
  ghost predicate CanMove(s: State)
    requires |s.v| == |s.threads|
  {
    CoordStep(s, false) != s || exists t :: 0 <= t < |s.threads| && ThreadStep(s, t) != s
  }

  // A thread that is not waiting for a completion that is yet to come can move.
  lemma ThreadCanMove(s: State, t: nat)
    requires Inv(s) && t < |s.threads| && 1 <= Rank(s.threads[t]) <= 8
    requires (Rank(s.threads[t]) == 3 ==> s.event1) && (Rank(s.threads[t]) == 6 ==> s.event2)
    ensures ThreadStep(s, t) != s
  {
    assert RankOk(s, s.threads[t]);
    assert s.vFreed != {} ==> exists u :: u in s.vFreed;
    assert ThreadStep(s, t).threads[t] != s.threads[t];
  }

  lemma SomeZero<T>(f: T -> nat, xs: seq<T>) returns (i: nat)
    requires SumOf(f, xs) < |xs| && forall j :: 0 <= j < |xs| ==> f(xs[j]) <= 1
    ensures i < |xs| && f(xs[i]) == 0
  {
    SumAllOnes(f, xs);
    i :| i < |xs| && f(xs[i]) != 1;
  }

  /** The barrier does not deadlock: until the coordinator has returned, somebody can move. */
  lemma NoDeadlock(s: State, n: nat)
    requires Reachable(s, n) && s.coord != Returned && s.coord != Aborted
    ensures |s.v| == |s.threads| && CanMove(s)
  {
    ReachableInv(s, n);
    if s.coord.WaitRunning? && s.running < |s.threads| {
      var t := SomeZero(InTest, s.threads);
      assert RankOk(s, s.threads[t]);
      ThreadCanMove(s, t);
    } else if s.coord.WaitPhase1? && s.phase1 < |s.threads| {
      var t := SomeZero(PastPhase1, s.threads);
      assert RankOk(s, s.threads[t]);
      ThreadCanMove(s, t);
    } else if s.coord.WaitFinish? && s.running != 0 {
      var t := SumPositive(InTest, s.threads);
      assert RankOk(s, s.threads[t]);
      ThreadCanMove(s, t);
    } else {
      assert CoordStep(s, false).coord != s.coord;
    }
  }
}
