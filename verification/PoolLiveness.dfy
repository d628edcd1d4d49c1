/** Every fair schedule finishes: no interleaving can make `wait_until_empty` or `join` wait for ever. */
module PoolLiveness {
  import opened Base
  import opened Pool
  import opened PoolInvariant

  // ---------------------------------------------------------------- a measure no turn increases

  /** Work left for one worker: four turns an item, then at most two to leave once told to stop. */
  function Load<T, S, R>(q: Queue<T>, w: Worker<T, S, R>): nat {
    match w.phase
    case Holding(_) => 4 * |q.items| + 5
    case Finishing => 4 * |q.items| + 4
    case Exited => 0
    case Checking => if q.items != [] then 4 * |q.items| + 3 else if w.stop then 1 else 2
    case Popping => if q.items != [] then 4 * |q.items| + 2 else 2
  }

  /** The worker has something to do that is not waiting. */
  predicate Eager<T, S, R>(q: Queue<T>, w: Worker<T, S, R>) {
    !w.phase.Exited? && (Busy(w) || q.items != [] || w.stop)
  }

  /** Turns the main thread still has to take. */
  function MainRank<T, S, R>(job: Job<T, S, R>, main: MainPhase): int {
    var n := job.workers;
    match main
    case Submitting(k) => (if k < |job.input| then |job.input| - k else 0) + 3 * n + 7
    case Joining(i) => 3 * n - i + 6
    case Reading(k) => 2 * n - k + 5
    case Stopping(i) => 2 * n - i + 2
    case Reaping(i) => n - i + 1
    case Done => 0
  }

  function Loads<T, S, R>(s: State<T, S, R>): nat -> int {
    (w: nat) => if w < |s.queues| && w < |s.workers| then Load(s.queues[w], s.workers[w]) else 0
  }

  /** The whole work left; submitting an item adds at most five to its worker's load. */
  function Potential<T, S, R>(job: Job<T, S, R>, s: State<T, S, R>): int {
    6 * MainRank(job, s.main) + Sum(job.workers, Loads(s))
  }

  /** The main thread is inside a `join` that has to wait. */
  predicate Blocked<T, S, R>(job: Job<T, S, R>, s: State<T, S, R>)
    requires Shaped(job, s)
  {
    || (s.main.Joining? && s.main.next < job.workers && s.queues[s.main.next].unfinished != 0)
    || (s.main.Reaping? && s.main.next < job.workers && !s.workers[s.main.next].phase.Exited?)
  }

  // ---------------------------------------------------------------- single turns

  lemma WorkerLoad<T, S, R>(job: Job<T, S, R>, q: Queue<T>, w: Worker<T, S, R>)
    requires Busy(w) ==> q.unfinished > 0
    ensures var (q', w') := WorkerTurn(job, q, w);
            Load(q', w') <= Load(q, w) && (Eager(q, w) ==> Load(q', w') < Load(q, w))
  {
  }

  lemma PushLoad<T, S, R>(q: Queue<T>, w: Worker<T, S, R>, item: T)
    requires !w.stop
    ensures Load(Push(q, item), w) <= Load(q, w) + 5
  {
  }

  lemma StopLoad<T, S, R>(q: Queue<T>, w: Worker<T, S, R>)
    ensures Load(q, w.(stop := true)) <= Load(q, w)
  {
  }

  /** Changing one worker's part changes the sum by that worker's change. */
  lemma LoadsAtOne<T, S, R>(job: Job<T, S, R>, s: State<T, S, R>, s': State<T, S, R>, w: nat)
    requires Shaped(job, s) && Shaped(job, s') && w < job.workers
    requires forall v: nat | v < job.workers && v != w :: s'.queues[v] == s.queues[v] && s'.workers[v] == s.workers[v]
    ensures Sum(job.workers, Loads(s')) ==
              Sum(job.workers, Loads(s)) + Load(s'.queues[w], s'.workers[w]) - Load(s.queues[w], s.workers[w])
  {
    SumBump(job.workers, Loads(s), Loads(s'), w, Load(s'.queues[w], s'.workers[w]) - Load(s.queues[w], s.workers[w]));
  }

  lemma SameLoads<T, S, R>(job: Job<T, S, R>, s: State<T, S, R>, s': State<T, S, R>)
    requires Shaped(job, s) && Shaped(job, s') && s'.queues == s.queues && s'.workers == s.workers
    ensures Sum(job.workers, Loads(s')) == Sum(job.workers, Loads(s))
  {
    SumEqual(job.workers, Loads(s'), Loads(s));
  }

  lemma SubmitPotential<T, S, R>(job: Job<T, S, R>, s: State<T, S, R>)
    requires Inv(job, s) && s.main.Submitting? && s.main.next < |job.input| && job.accepts(job.input[s.main.next])
    ensures Potential(job, MainTurn(job, s)) < Potential(job, s)
  {
    var item := job.input[s.main.next];
    var w := job.route(item);
    MainRankFalls(job, s);
    PushLoad(s.queues[w], s.workers[w], item);
    LoadsAtOne(job, s, MainTurn(job, s), w);
  }

  lemma StopPotential<T, S, R>(job: Job<T, S, R>, s: State<T, S, R>)
    requires Inv(job, s) && s.main.Stopping? && s.main.next < job.workers
    ensures Potential(job, MainTurn(job, s)) < Potential(job, s)
  {
    MainRankFalls(job, s);
    StopLoad(s.queues[s.main.next], s.workers[s.main.next]);
    LoadsAtOne(job, s, MainTurn(job, s), s.main.next);
  }

  /** An unblocked main turn uses up potential; a blocked one changes nothing. */
  lemma MainTurnPotential<T, S, R>(job: Job<T, S, R>, s: State<T, S, R>)
    requires Inv(job, s)
    ensures Blocked(job, s) || s.main.Done? ==> MainTurn(job, s) == s
    ensures !Blocked(job, s) && !s.main.Done? ==> Potential(job, MainTurn(job, s)) < Potential(job, s)
  {
    if !Blocked(job, s) && !s.main.Done? {
      if s.main.Submitting? && s.main.next < |job.input| && job.accepts(job.input[s.main.next]) {
        SubmitPotential(job, s);
      } else if s.main.Stopping? && s.main.next < job.workers {
        StopPotential(job, s);
      } else {
        MainRankFalls(job, s);
        MainTurnLeavesWorkers(job, s);
        SameLoads(job, s, MainTurn(job, s));
      }
    }
  }

  lemma MainTurnLeavesWorkers<T, S, R>(job: Job<T, S, R>, s: State<T, S, R>)
    requires Shaped(job, s)
    requires s.main.Submitting? && s.main.next < |job.input| ==> !job.accepts(job.input[s.main.next])
    requires s.main.Stopping? ==> s.main.next >= job.workers
    ensures MainTurn(job, s).queues == s.queues && MainTurn(job, s).workers == s.workers
  {
  }

  lemma MainRankFalls<T, S, R>(job: Job<T, S, R>, s: State<T, S, R>)
    requires Shaped(job, s) && MainBounds(job, s.main) && !Blocked(job, s) && !s.main.Done?
    ensures MainRank(job, MainTurn(job, s).main) == MainRank(job, s.main) - 1
  {
  }

  /** A worker's turn never adds potential, and uses some up when the worker is eager. */
  lemma WorkPotential<T, S, R>(job: Job<T, S, R>, s: State<T, S, R>, w: nat)
    requires Inv(job, s) && w < job.workers
    ensures Potential(job, Turn(job, s, Work(w))) <= Potential(job, s)
    ensures Eager(s.queues[w], s.workers[w]) ==> Potential(job, Turn(job, s, Work(w))) < Potential(job, s)
  {
    BusyIsUnfinished(job, s, w);
    WorkerLoad(job, s.queues[w], s.workers[w]);
    LoadsAtOne(job, s, Turn(job, s, Work(w)), w);
  }

  lemma BusyIsUnfinished<T, S, R>(job: Job<T, S, R>, s: State<T, S, R>, w: nat)
    requires Inv(job, s) && w < job.workers
    ensures s.queues[w].unfinished == |s.queues[w].items| + if Busy(s.workers[w]) then 1 else 0
    ensures s.workers[w].phase.Exited? ==> s.workers[w].stop
    ensures s.workers[w].stop ==> s.queues[w].unfinished == 0
  {
    assert WorkerInv(job, Submitted(job, Position(job, s.main), w), s.queues[w], s.workers[w]);
  }

  lemma TurnPotential<T, S, R>(job: Job<T, S, R>, s: State<T, S, R>, a: Actor)
    requires Inv(job, s)
    ensures Potential(job, Turn(job, s, a)) <= Potential(job, s)
  {
    match a {
      case Main => MainTurnPotential(job, s);
      case Work(w) => if w < job.workers { WorkPotential(job, s, w); }
    }
  }

  // ---------------------------------------------------------------- somebody can always help

  /** A thread whose next turn uses up potential. */
  predicate Helpful<T, S, R>(job: Job<T, S, R>, s: State<T, S, R>, a: Actor)
    requires Shaped(job, s)
  {
    match a
    case Main => !Blocked(job, s) && !s.main.Done?
    case Work(w) => w < job.workers && Eager(s.queues[w], s.workers[w])
  }

  /** Until the run is over some thread can help: the main thread, or the very worker it is waiting for. */
  lemma SomeoneHelps<T, S, R>(job: Job<T, S, R>, s: State<T, S, R>) returns (a: Actor)
    requires Inv(job, s) && !s.main.Done?
    ensures Helpful(job, s, a) && (a == Main || (a.Work? && a.w < job.workers))
  {
    if !Blocked(job, s) {
      a := Main;
    } else {
      a := Work(s.main.next);
      BusyIsUnfinished(job, s, s.main.next);
    }
  }

  lemma HelpfulTurn<T, S, R>(job: Job<T, S, R>, s: State<T, S, R>, a: Actor)
    requires Inv(job, s) && Helpful(job, s, a)
    ensures Potential(job, Turn(job, s, a)) < Potential(job, s)
  {
    match a {
      case Main => MainTurnPotential(job, s);
      case Work(w) => WorkPotential(job, s, w);
    }
  }

  lemma TurnUndoesNothing<T, S, R>(job: Job<T, S, R>, q: Queue<T>, w: Worker<T, S, R>)
    ensures var (q', w') := WorkerTurn(job, q, w);
            (q.unfinished == 0 ==> q'.unfinished == 0) && (w.phase.Exited? ==> w'.phase.Exited?)
  {
  }

  /** No worker's turn blocks the main thread. */
  lemma WorkBlocksNobody<T, S, R>(job: Job<T, S, R>, s: State<T, S, R>, w: nat)
    requires Shaped(job, s) && w < job.workers && !Blocked(job, s)
    ensures !Blocked(job, Turn(job, s, Work(w)))
  {
    TurnUndoesNothing(job, s.queues[w], s.workers[w]);
    WorkTurn(job, s, w);
  }

  /** A turn of another thread that uses up nothing leaves the helpful thread helpful. */
  lemma HelpfulStays<T, S, R>(job: Job<T, S, R>, s: State<T, S, R>, a: Actor, other: Actor)
    requires Inv(job, s) && Helpful(job, s, a) && other != a
    requires Potential(job, Turn(job, s, other)) == Potential(job, s)
    ensures Helpful(job, Turn(job, s, other), a)
  {
    match other {
      case Main => MainTurnPotential(job, s);
      case Work(w) =>
        if w < job.workers {
          if a == Main { WorkBlocksNobody(job, s, w); }
          WorkTurn(job, s, w);
        }
    }
  }

  lemma {:induction false} NeverMore<T, S, R>(job: Job<T, S, R>, s: State<T, S, R>, schedule: seq<Actor>)
    requires Inv(job, s)
    ensures Potential(job, Continue(job, s, schedule)) <= Potential(job, s)
    decreases |schedule|
  {
    if schedule != [] {
      TurnPotential(job, s, schedule[0]);
      TurnKeeps(job, s, schedule[0]);
      NeverMore(job, Turn(job, s, schedule[0]), schedule[1..]);
    }
  }

  /** A stretch of schedule in which a helpful thread gets a turn uses up potential. */
  lemma {:induction false} HelpArrives<T, S, R>(job: Job<T, S, R>, s: State<T, S, R>, schedule: seq<Actor>, a: Actor)
    requires Inv(job, s) && Helpful(job, s, a) && a in schedule
    ensures Potential(job, Continue(job, s, schedule)) < Potential(job, s)
    decreases |schedule|
  {
    var first, rest := schedule[0], schedule[1..];
    var s' := Turn(job, s, first);
    TurnKeeps(job, s, first);
    TurnPotential(job, s, first);
    if first == a {
      HelpfulTurn(job, s, a);
      NeverMore(job, s', rest);
    } else if Potential(job, s') < Potential(job, s) {
      NeverMore(job, s', rest);
    } else {
      HelpfulStays(job, s, a, first);
      HelpArrives(job, s', rest, a);
    }
  }

  // ---------------------------------------------------------------- fair schedules finish

  /** Every thread gets at least one turn. */
  predicate IsRound<T, S, R>(job: Job<T, S, R>, round: seq<Actor>) {
    Main in round && forall w: nat | w < job.workers :: Work(w) in round
  }

  predicate AllRounds<T, S, R>(job: Job<T, S, R>, rounds: seq<seq<Actor>>) {
    forall i | 0 <= i < |rounds| :: IsRound(job, rounds[i])
  }

  function Flatten(rounds: seq<seq<Actor>>): seq<Actor> {
    if rounds == [] then [] else rounds[0] + Flatten(rounds[1..])
  }

  lemma {:induction false} ContinueConcat<T, S, R>(job: Job<T, S, R>, s: State<T, S, R>, a: seq<Actor>, b: seq<Actor>)
    requires Shaped(job, s)
    ensures Continue(job, s, a + b) == Continue(job, Continue(job, s, a), b)
    decreases |a|
  {
    if a == [] {
      assert a + b == b;
    } else {
      assert (a + b)[1..] == a[1..] + b;
      ContinueConcat(job, Turn(job, s, a[0]), a[1..], b);
    }
  }

  lemma RoundProgress<T, S, R>(job: Job<T, S, R>, s: State<T, S, R>, round: seq<Actor>)
    requires Inv(job, s) && IsRound(job, round) && !s.main.Done?
    ensures Potential(job, Continue(job, s, round)) < Potential(job, s)
  {
    var a := SomeoneHelps(job, s);
    HelpArrives(job, s, round, a);
  }

  lemma {:induction false} DoneStays<T, S, R>(job: Job<T, S, R>, s: State<T, S, R>, schedule: seq<Actor>)
    requires Shaped(job, s) && s.main.Done?
    ensures Continue(job, s, schedule).main.Done?
    decreases |schedule|
  {
    if schedule != [] { DoneStays(job, Turn(job, s, schedule[0]), schedule[1..]); }
  }

  lemma {:induction false} SumNotNegative(n: nat, f: nat -> int)
    requires forall i: nat | i < n :: f(i) >= 0
    ensures Sum(n, f) >= 0
  {
    if n > 0 { SumNotNegative(n - 1, f); }
  }

  lemma PotentialNotNegative<T, S, R>(job: Job<T, S, R>, s: State<T, S, R>)
    requires Shaped(job, s) && MainBounds(job, s.main)
    ensures Potential(job, s) >= 0
  {
    SumNotNegative(job.workers, Loads(s));
  }

  /** From any reachable state, as many rounds as there is potential finish the run. */
  lemma {:induction false} RoundsFinish<T, S, R>(job: Job<T, S, R>, s: State<T, S, R>, rounds: seq<seq<Actor>>)
    requires Inv(job, s) && |rounds| >= Potential(job, s)
    requires AllRounds(job, rounds)
    ensures Continue(job, s, Flatten(rounds)).main.Done?
    decreases |rounds|
  {
    if s.main.Done? {
      DoneStays(job, s, Flatten(rounds));
    } else {
      if rounds == [] {
        PotentialNotNegative(job, s);
        MainIsNotDone(job, s);
      }
      var s' := Continue(job, s, rounds[0]);
      ContinueKeeps(job, s, rounds[0]);
      RoundProgress(job, s, rounds[0]);
      RoundsFinish(job, s', rounds[1..]);
      ContinueConcat(job, s, rounds[0], Flatten(rounds[1..]));
    }
  }

  lemma MainIsNotDone<T, S, R>(job: Job<T, S, R>, s: State<T, S, R>)
    requires Inv(job, s) && !s.main.Done?
    ensures Potential(job, s) > 0
  {
    SumNotNegative(job.workers, Loads(s));
  }

  /** Every fair run ends: enough rounds in which each thread gets a turn, in any order and with any further turns
      between, bring the main thread to its end, however often the processor fails. */
  lemma FairRunsFinish<T, S, R>(job: Job<T, S, R>, rounds: seq<seq<Actor>>)
    requires ValidJob(job) && |rounds| >= 6 * |job.input| + 20 * job.workers + 42
    requires AllRounds(job, rounds)
    ensures Run(job, Flatten(rounds)).main.Done?
  {
    StartInv(job);
    StartLoads(job, job.workers);
    RoundsFinish(job, Start(job), rounds);
  }

  lemma {:induction false} StartLoads<T, S, R>(job: Job<T, S, R>, n: nat)
    requires ValidJob(job) && n <= job.workers
    ensures Sum(n, Loads(Start(job))) == 2 * n
  {
    if n > 0 { StartLoads(job, n - 1); }
  }
}
