/** The V2 threads as a step system: one producer, N workers with a queue each, any interleaving of their turns. */
module Pool {
  import opened Base

  // ---------------------------------------------------------------- what is run

  /** A processor's answer, or the exception it raised. */
  datatype Outcome<+R> = Returned(value: R) | Raised(error: string)

  /** What a pool is asked to do. The processor may fail on any item, and may change its state when it does. */
  datatype Job<!T, !S, !R> = Job(
    workers: nat,
    input: seq<T>,
    accepts: T -> bool,
    route: T -> nat,
    init: S,
    proc: (S, T) -> (S, Outcome<R>))

  predicate ValidJob<T, S, R>(job: Job<T, S, R>) {
    && job.workers > 0
    && forall i | 0 <= i < |job.input| && job.accepts(job.input[i]) :: job.route(job.input[i]) < job.workers
  }

  /** What one worker has done so far: its processor's state, its results, its two counters and its latest error. */
  datatype Log<S, R> = Log(state: S, results: seq<R>, processed: nat, errors: nat, lastError: Option<string>)

  function NewLog<T, S, R>(job: Job<T, S, R>): Log<S, R> {
    Log(job.init, [], 0, 0, None)
  }

  /** The `try` and `except` of `DPIWorker._run`: a result or an error is recorded. */
  function Absorb<T, S, R>(job: Job<T, S, R>, log: Log<S, R>, item: T): Log<S, R> {
    var (state, result) := job.proc(log.state, item);
    if result.Raised? then log.(state := state, errors := log.errors + 1, lastError := Some(result.error))
    else log.(state := state, results := log.results + [result.value], processed := log.processed + 1)
  }

  /** One processor fed a list of items in order, with no threads at all. */
  function SeqRun<T, S, R>(job: Job<T, S, R>, items: seq<T>): (log: Log<S, R>)
    ensures log.processed == |log.results| && log.processed + log.errors == |items|
    ensures log.lastError == None <==> log.errors == 0
  {
    if items == [] then NewLog(job)
    else Absorb(job, SeqRun(job, items[..|items| - 1]), items[|items| - 1])
  }

  // ---------------------------------------------------------------- the shared state

  /** `queue.Queue`: the waiting items and the number of unfinished tasks. */
  datatype Queue<T> = Queue(items: seq<T>, unfinished: nat)

  function Push<T>(q: Queue<T>, item: T): Queue<T> {
    Queue(q.items + [item], q.unfinished + 1)
  }

  /** Where a worker stands in `_run`: at the loop test, in `pop`, with an item, before `task_done`, or gone. */
  datatype Phase<T> = Checking | Popping | Holding(item: T) | Finishing | Exited

  datatype Worker<T, S, R> = Worker(phase: Phase<T>, log: Log<S, R>, stop: bool)

  /** Where the main thread stands in `V2Pipeline.run`. */
  datatype MainPhase =
    | Submitting(next: nat) | Joining(next: nat) | Reading(done: nat) | Stopping(next: nat) | Reaping(next: nat) | Done

  /** What the main thread reads from the workers: `get_worker_stats`, `get_results`, `get_error_stats`. */
  datatype Collected<R> = Collected(stats: seq<nat>, results: seq<R>, errors: map<nat, nat>)

  datatype State<T, S, R> = State(
    queues: seq<Queue<T>>, workers: seq<Worker<T, S, R>>, main: MainPhase, skipped: nat, collected: Collected<R>)

  predicate Shaped<T, S, R>(job: Job<T, S, R>, s: State<T, S, R>) {
    ValidJob(job) && |s.queues| == |s.workers| == job.workers
  }

  // ---------------------------------------------------------------- the turns

  /** One turn of worker `w` on its queue `q`. An empty queue makes `pop` time out; `task_done` without an
      unfinished task would raise out of the loop. */
  function WorkerTurn<T, S, R>(job: Job<T, S, R>, q: Queue<T>, w: Worker<T, S, R>): (Queue<T>, Worker<T, S, R>) {
    match w.phase
    case Checking => (q, w.(phase := if w.stop then Exited else Popping))
    case Popping =>
      if q.items == [] then (q, w.(phase := Checking))
      else (q.(items := q.items[1..]), w.(phase := Holding(q.items[0])))
    case Holding(item) => (q, w.(phase := Finishing, log := Absorb(job, w.log, item)))
    case Finishing =>
      if q.unfinished == 0 then (q, w.(phase := Exited))
      else (q.(unfinished := q.unfinished - 1), w.(phase := Checking))
    case Exited => (q, w)
  }

  function Stats<T, S, R>(workers: seq<Worker<T, S, R>>): seq<nat> {
    seq(|workers|, w requires 0 <= w < |workers| => workers[w].log.processed)
  }

  function AllResults<T, S, R>(workers: seq<Worker<T, S, R>>): seq<R> {
    if workers == [] then [] else AllResults(workers[..|workers| - 1]) + workers[|workers| - 1].log.results
  }

  function ErrorStats<T, S, R>(workers: seq<Worker<T, S, R>>): map<nat, nat> {
    map w: nat | w < |workers| && workers[w].log.errors != 0 :: workers[w].log.errors
  }

  /** One turn of the main thread; a blocked `join` leaves everything as it is. */
  function MainTurn<T, S, R>(job: Job<T, S, R>, s: State<T, S, R>): State<T, S, R>
    requires Shaped(job, s)
  {
    match s.main
    case Submitting(n) =>
      if n >= |job.input| then s.(main := Joining(0))
      else if !job.accepts(job.input[n]) then s.(main := Submitting(n + 1), skipped := s.skipped + 1)
      else
        var w := job.route(job.input[n]);
        s.(main := Submitting(n + 1), queues := s.queues[w := Push(s.queues[w], job.input[n])])
    case Joining(i) =>
      if i >= job.workers then s.(main := Reading(0))
      else if s.queues[i].unfinished == 0 then s.(main := Joining(i + 1))
      else s
    case Reading(k) =>
      if k == 0 then s.(main := Reading(1), collected := s.collected.(stats := Stats(s.workers)))
      else if k == 1 then s.(main := Reading(2), collected := s.collected.(results := AllResults(s.workers)))
      else s.(main := Stopping(0), collected := s.collected.(errors := ErrorStats(s.workers)))
    case Stopping(i) =>
      if i >= job.workers then s.(main := Reaping(0))
      else s.(main := Stopping(i + 1), workers := s.workers[i := s.workers[i].(stop := true)])
    case Reaping(i) =>
      if i >= job.workers then s.(main := Done)
      else if s.workers[i].phase.Exited? then s.(main := Reaping(i + 1))
      else s
    case Done => s
  }

  datatype Actor = Main | Work(w: nat)

  /** One turn of any thread. */
  function Turn<T, S, R>(job: Job<T, S, R>, s: State<T, S, R>, a: Actor): (s': State<T, S, R>)
    requires Shaped(job, s)
    ensures Shaped(job, s')
  {
    match a
    case Main => MainTurn(job, s)
    case Work(w) =>
      if w >= job.workers then s
      else
        var (q, worker) := WorkerTurn(job, s.queues[w], s.workers[w]);
        s.(queues := s.queues[w := q], workers := s.workers[w := worker])
  }

  function Start<T, S, R>(job: Job<T, S, R>): (s: State<T, S, R>)
    requires ValidJob(job)
    ensures Shaped(job, s)
  {
    State(
      seq(job.workers, _ => Queue([], 0)),
      seq(job.workers, _ => Worker(Checking, NewLog(job), false)),
      Submitting(0), 0, Collected([], [], map[]))
  }

  /** The state after the threads have taken turns in the order of `schedule`. */
  function Continue<T, S, R>(job: Job<T, S, R>, s: State<T, S, R>, schedule: seq<Actor>): (s': State<T, S, R>)
    requires Shaped(job, s)
    ensures Shaped(job, s')
    decreases |schedule|
  {
    if schedule == [] then s else Continue(job, Turn(job, s, schedule[0]), schedule[1..])
  }

  /** A whole run under an arbitrary interleaving. */
  function Run<T, S, R>(job: Job<T, S, R>, schedule: seq<Actor>): (s: State<T, S, R>)
    requires ValidJob(job)
    ensures Shaped(job, s)
  {
    Continue(job, Start(job), schedule)
  }
}
