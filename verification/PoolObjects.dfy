/** The V2 objects whose fields the threads update in place, each method against its turn in the step system. */
module PoolObjects {
  import opened Base
  import opened Pool
  import opened PoolInvariant

  /** `ThreadSafeQueue`, unbounded as the pool builds it. */
  class ThreadSafeQueue<T> {
    var items: seq<T>
    var unfinished: nat

    constructor ()
      ensures View() == Queue([], 0)
    {
      items, unfinished := [], 0;
    }

    function View(): Queue<T>
      reads this
    {
      Queue(items, unfinished)
    }

    method Push(item: T)
      modifies this
      ensures View() == Pool.Push(old(View()), item)
    {
      items, unfinished := items + [item], unfinished + 1;
    }

    /** `pop`; None is the timeout's exception. The task stays unfinished. */
    method Pop() returns (item: Option<T>)
      modifies this`items
      ensures if old(items) == [] then item == None && items == []
              else item.Some? && [item.value] + items == old(items)
    {
      if items == [] { return None; }
      item, items := Some(items[0]), items[1..];
    }

    /** `task_done`; false is its ValueError. */
    method TaskDone() returns (done: bool)
      modifies this`unfinished
      ensures done == (old(unfinished) > 0)
      ensures unfinished == if done then old(unfinished) - 1 else old(unfinished)
    {
      done := unfinished > 0;
      if done { unfinished := unfinished - 1; }
    }

    /** `join` returns only in such a state. */
    predicate AllDone()
      reads this
    {
      unfinished == 0
    }
  }

  /** `DPIWorker`; `phase` is the thread's place in `_run`, `state` whatever its processor remembers. */
  class DPIWorker<T(!new), S(!new), R(!new)> {
    const job: Job<T, S, R>
    const queue: ThreadSafeQueue<T>
    var phase: Phase<T>
    var state: S
    var results: seq<R>
    var processedCount: nat
    var errorCount: nat
    var lastError: Option<string>
    var stopEvent: bool

    constructor (job: Job<T, S, R>, queue: ThreadSafeQueue<T>)
      ensures this.job == job && this.queue == queue
      ensures View() == Worker(Checking, NewLog(job), false)
    {
      this.job, this.queue := job, queue;
      phase, state, results, stopEvent := Checking, job.init, [], false;
      processedCount, errorCount, lastError := 0, 0, None;
    }

    function View(): Worker<T, S, R>
      reads this
    {
      Worker(phase, Log(state, results, processedCount, errorCount, lastError), stopEvent)
    }

    method Stop()
      modifies this`stopEvent
      ensures View() == old(View()).(stop := true)
    {
      stopEvent := true;
    }

    /** The `try` and `except` around the processor. */
    method Process(item: T)
      modifies this`state, this`results, this`processedCount, this`errorCount, this`lastError
      ensures View() == old(View()).(log := Absorb(job, old(View()).log, item))
    {
      var (after, result) := job.proc(state, item);
      state := after;
      if result.Returned? {
        results := results + [result.value];
        processedCount := processedCount + 1;
      } else {
        errorCount := errorCount + 1;
        lastError := Some(result.error);
      }
    }

    /** `_run` up to the next point where another thread may come in between. */
    method Turn()
      modifies this, queue
      ensures (queue.View(), View()) == WorkerTurn(job, old(queue.View()), old(View()))
    {
      match phase
      case Checking =>
        phase := if stopEvent then Exited else Popping;
      case Popping =>
        var item := queue.Pop();
        phase := if item.Some? then Holding(item.value) else Checking;
      case Holding(item) =>
        Process(item);
        phase := Finishing;
      case Finishing =>
        var done := queue.TaskDone();
        phase := if done then Checking else Exited;
      case Exited =>
    }
  }

  /** `WorkerPool`: one queue and one worker per index, none of them shared. */
  class WorkerPool<T(!new), S(!new), R(!new)> {
    const job: Job<T, S, R>
    const queues: seq<ThreadSafeQueue<T>>
    const workers: seq<DPIWorker<T, S, R>>

    ghost predicate Valid() {
      && ValidJob(job) && |queues| == |workers| == job.workers
      && (forall i | 0 <= i < job.workers :: workers[i].queue == queues[i] && workers[i].job == job)
      && (forall i, j | 0 <= i < j < job.workers :: queues[i] != queues[j] && workers[i] != workers[j])
    }

    constructor (job: Job<T, S, R>)
      requires ValidJob(job)
      ensures Valid() && this.job == job
      ensures forall i | 0 <= i < job.workers :: fresh(queues[i]) && fresh(workers[i])
      ensures QueueViews() == Start(job).queues && WorkerViews() == Start(job).workers
    {
      var qs: seq<ThreadSafeQueue<T>>, ws: seq<DPIWorker<T, S, R>> := [], [];
      while |qs| < job.workers
        invariant |qs| == |ws| <= job.workers
        invariant forall i | 0 <= i < |qs| :: fresh(qs[i]) && fresh(ws[i]) && ws[i].queue == qs[i] && ws[i].job == job
        invariant forall i, j | 0 <= i < j < |qs| :: qs[i] != qs[j] && ws[i] != ws[j]
        invariant forall i | 0 <= i < |qs| ::
                    qs[i].View() == Queue([], 0) && ws[i].View() == Worker(Checking, NewLog(job), false)
      {
        var queue := new ThreadSafeQueue<T>();
        var worker := new DPIWorker<T, S, R>(job, queue);
        qs, ws := qs + [queue], ws + [worker];
      }
      this.job, this.queues, this.workers := job, qs, ws;
    }

    function QueueViews(): seq<Queue<T>>
      reads queues
    {
      seq(|queues|, i requires 0 <= i < |queues| reads queues => queues[i].View())
    }

    function WorkerViews(): seq<Worker<T, S, R>>
      reads workers
    {
      seq(|workers|, i requires 0 <= i < |workers| reads workers => workers[i].View())
    }

    /** `submit`, with the balancer's choice of worker. */
    method Submit(item: T) returns (workerId: nat)
      requires Valid() && job.route(item) < job.workers
      modifies queues
      ensures workerId == job.route(item)
      ensures QueueViews() == old(QueueViews())[workerId := Pool.Push(old(QueueViews())[workerId], item)]
    {
      workerId := job.route(item);
      queues[workerId].Push(item);
    }

    /** One turn of worker `w`'s thread. */
    method WorkerTurn(w: nat)
      requires Valid() && w < job.workers
      modifies workers[w], queues[w]
      ensures var (q, worker) := Pool.WorkerTurn(job, old(QueueViews())[w], old(WorkerViews())[w]);
              QueueViews() == old(QueueViews())[w := q] && WorkerViews() == old(WorkerViews())[w := worker]
    {
      workers[w].Turn();
    }

    method StopWorker(w: nat)
      requires Valid() && w < job.workers
      modifies workers[w]
      ensures WorkerViews() == old(WorkerViews())[w := old(WorkerViews())[w].(stop := true)]
    {
      workers[w].Stop();
    }

    /** `get_queue`; None is its ValueError. */
    function GetQueue(workerId: int): (queue: Option<ThreadSafeQueue<T>>)
      requires Valid()
      ensures queue.Some? <==> 0 <= workerId < job.workers
      ensures queue.Some? ==> queue.value == queues[workerId]
    {
      if workerId < 0 || workerId >= job.workers then None else Some(queues[workerId])
    }

    method GetResults() returns (results: seq<R>)
      requires Valid()
      ensures results == AllResults(WorkerViews())
    {
      results := [];
      for i := 0 to |workers|
        invariant results == AllResults(WorkerViews()[..i])
      {
        results := results + workers[i].results;
        assert WorkerViews()[..i + 1][..i] == WorkerViews()[..i];
      }
      assert WorkerViews()[..|workers|] == WorkerViews();
    }

    function GetWorkerStats(): (stats: seq<nat>)
      reads workers
      ensures stats == Stats(WorkerViews())
    {
      seq(|workers|, i requires 0 <= i < |workers| reads workers => workers[i].processedCount)
    }

    function GetErrorStats(): (stats: map<nat, nat>)
      reads workers
      ensures stats == ErrorStats(WorkerViews())
    {
      map i: nat | i < |workers| && workers[i].errorCount != 0 :: workers[i].errorCount
    }
  }

  /** `V2Pipeline`; `main` is the main thread's place in `run`. */
  class V2Pipeline<T(!new), S(!new), R(!new)> {
    const pool: WorkerPool<T, S, R>
    var main: MainPhase
    var skippedPackets: nat
    var collected: Collected<R>

    ghost predicate Valid() {
      pool.Valid()
    }

    constructor (job: Job<T, S, R>)
      requires ValidJob(job)
      ensures Valid() && pool.job == job && View() == Start(job)
      ensures forall i | 0 <= i < job.workers :: fresh(pool.queues[i]) && fresh(pool.workers[i])
    {
      pool := new WorkerPool<T, S, R>(job);
      main, skippedPackets, collected := Submitting(0), 0, Collected([], [], map[]);
    }

    function View(): State<T, S, R>
      reads this, pool.queues, pool.workers
    {
      State(pool.QueueViews(), pool.WorkerViews(), main, skippedPackets, collected)
    }

    /** One packet of the loop in `run`, or its end. */
    method SubmitNext(n: nat)
      requires Valid() && main == Submitting(n)
      modifies this`main, this`skippedPackets, pool.queues
      ensures View() == MainTurn(pool.job, old(View()))
    {
      if n >= |pool.job.input| {
        main := Joining(0);
      } else {
        var item := pool.job.input[n];
        if pool.job.accepts(item) {
          var w := pool.Submit(item);
        } else {
          skippedPackets := skippedPackets + 1;
        }
        main := Submitting(n + 1);
      }
    }

    /** `get_worker_stats`, `get_results` and `get_error_stats`, one after the other. */
    method ReadNext(k: nat)
      requires Valid() && main == Reading(k)
      modifies this`main, this`collected
      ensures View() == MainTurn(pool.job, old(View()))
    {
      if k == 0 {
        collected := collected.(stats := pool.GetWorkerStats());
        main := Reading(1);
      } else if k == 1 {
        var results := pool.GetResults();
        collected := collected.(results := results);
        main := Reading(2);
      } else {
        collected := collected.(errors := pool.GetErrorStats());
        main := Stopping(0);
      }
    }

    /** `run` up to the next point where a worker may come in between. */
    method MainThread()
      requires Valid()
      modifies this, pool.queues, pool.workers
      ensures View() == MainTurn(pool.job, old(View()))
    {
      match main
      case Submitting(n) => SubmitNext(n);
      case Joining(i) =>
        if i >= pool.job.workers {
          main := Reading(0);
        } else if pool.queues[i].AllDone() {
          main := Joining(i + 1);
        }
      case Reading(k) => ReadNext(k);
      case Stopping(i) =>
        if i >= pool.job.workers {
          main := Reaping(0);
        } else {
          pool.StopWorker(i);
          main := Stopping(i + 1);
        }
      case Reaping(i) =>
        if i >= pool.job.workers {
          main := Done;
        } else if pool.workers[i].phase.Exited? {
          main := Reaping(i + 1);
        }
      case Done =>
    }

    method Step(a: Actor)
      requires Valid()
      modifies this, pool.queues, pool.workers
      ensures View() == Turn(pool.job, old(View()), a)
    {
      match a
      case Main => MainThread();
      case Work(w) => if w < pool.job.workers { pool.WorkerTurn(w); }
    }

    /** The objects under any interleaving do exactly what the step system does. */
    method Interleave(schedule: seq<Actor>)
      requires Valid()
      modifies this, pool.queues, pool.workers
      ensures View() == Continue(pool.job, old(View()), schedule)
    {
      for i := 0 to |schedule|
        invariant Continue(pool.job, View(), schedule[i..]) == Continue(pool.job, old(View()), schedule)
      {
        Step(schedule[i]);
        assert schedule[i..][1..] == schedule[i + 1..];
      }
    }
  }

  /** A new pipeline under any schedule that lets it finish: the fields it read are those of lone processors. */
  method RunPipeline<T(!new), S(!new), R(!new)>(job: Job<T, S, R>, schedule: seq<Actor>)
    returns (p: V2Pipeline<T, S, R>)
    requires ValidJob(job)
    ensures p.Valid() && p.View() == Run(job, schedule)
    ensures p.main.Done? ==>
              && p.collected == Collected(ExpectedStats(job), ExpectedResults(job, job.workers), ExpectedErrors(job))
              && p.skippedPackets == |job.input| - |Filter(job.accepts, job.input)|
  {
    p := new V2Pipeline<T, S, R>(job);
    p.Interleave(schedule);
    if p.main.Done? { EveryScheduleAgrees(job, schedule); }
  }
}
