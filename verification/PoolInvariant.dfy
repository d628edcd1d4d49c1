/** What every reachable state of the pool satisfies, and what every finished run therefore computed. */
module PoolInvariant {
  import opened Base
  import opened Pool

  // ---------------------------------------------------------------- the invariant

  function RoutedTo<T, S, R>(job: Job<T, S, R>, w: nat): T -> bool {
    (item: T) => job.accepts(item) && job.route(item) == w
  }

  /** The items submitted to worker `w` among the first `n` of the input. */
  function Submitted<T, S, R>(job: Job<T, S, R>, n: nat, w: nat): seq<T>
    requires n <= |job.input|
  {
    Filter(RoutedTo(job, w), job.input[..n])
  }

  /** The worker has popped an item it has not yet called `task_done` for. */
  predicate Busy<T, S, R>(w: Worker<T, S, R>) {
    w.phase.Holding? || w.phase.Finishing?
  }

  /** Submitted and not yet processed: the item in hand, then the queue. */
  function Pending<T, S, R>(q: Queue<T>, w: Worker<T, S, R>): seq<T> {
    if w.phase.Holding? then [w.phase.item] + q.items else q.items
  }

  /** `done + Pending` are the items submitted, in order, and the log is that of a sequential run over `done`. */
  ghost predicate WorkerInv<T, S, R>(
    job: Job<T, S, R>, submitted: seq<T>, q: Queue<T>, w: Worker<T, S, R>)
  {
    var pending := Pending(q, w);
    && |pending| <= |submitted|
    && submitted == submitted[..|submitted| - |pending|] + pending
    && w.log == SeqRun(job, submitted[..|submitted| - |pending|])
    && q.unfinished == |q.items| + (if Busy(w) then 1 else 0)
    && (w.phase.Exited? ==> w.stop)
  }

  /** How much of the input the main thread has gone through. */
  function Position<T, S, R>(job: Job<T, S, R>, main: MainPhase): nat {
    if main.Submitting? && main.next < |job.input| then main.next else |job.input|
  }

  /** How many queues the main thread has joined. */
  function Joined<T, S, R>(job: Job<T, S, R>, main: MainPhase): nat {
    match main
    case Submitting(_) => 0
    case Joining(i) => i
    case _ => job.workers
  }

  /** How many workers the main thread has told to stop. */
  function Stopped<T, S, R>(job: Job<T, S, R>, main: MainPhase): nat {
    match main
    case Stopping(i) => i
    case Reaping(_) => job.workers
    case Done => job.workers
    case _ => 0
  }

  /** How many worker threads the main thread has waited for. */
  function Reaped<T, S, R>(job: Job<T, S, R>, main: MainPhase): nat {
    match main
    case Reaping(i) => i
    case Done => job.workers
    case _ => 0
  }

  /** What worker `w` records when it alone processes its share of the input. */
  function Share<T, S, R>(job: Job<T, S, R>, w: nat): Log<S, R> {
    SeqRun(job, Submitted(job, |job.input|, w))
  }

  /** What the main thread must read. */
  function ExpectedResults<T, S, R>(job: Job<T, S, R>, n: nat): seq<R> {
    if n == 0 then [] else ExpectedResults(job, n - 1) + Share(job, n - 1).results
  }

  function ExpectedStats<T, S, R>(job: Job<T, S, R>): seq<nat> {
    seq(job.workers, w requires w >= 0 => Share(job, w).processed)
  }

  function ExpectedErrors<T, S, R>(job: Job<T, S, R>): map<nat, nat> {
    map w: nat | w < job.workers && Share(job, w).errors != 0 :: Share(job, w).errors
  }

  /** How many of its three readings the main thread has made. */
  function Readings(main: MainPhase): nat {
    match main
    case Reading(k) => k
    case Stopping(_) => 3
    case Reaping(_) => 3
    case Done => 3
    case _ => 0
  }

  ghost predicate ReadSoFar<T, S, R>(job: Job<T, S, R>, main: MainPhase, c: Collected<R>) {
    && (Readings(main) >= 1 ==> c.stats == ExpectedStats(job))
    && (Readings(main) >= 2 ==> c.results == ExpectedResults(job, job.workers))
    && (Readings(main) >= 3 ==> c.errors == ExpectedErrors(job))
  }

  predicate MainBounds<T, S, R>(job: Job<T, S, R>, main: MainPhase) {
    match main
    case Submitting(n) => n <= |job.input|
    case Joining(i) => i <= job.workers
    case Reading(k) => k < 3
    case Stopping(i) => i <= job.workers
    case Reaping(i) => i <= job.workers
    case Done => true
  }

  ghost predicate WorkersInv<T, S, R>(job: Job<T, S, R>, s: State<T, S, R>)
    requires Shaped(job, s)
  {
    forall w: nat | w < job.workers ::
      WorkerInv(job, Submitted(job, Position(job, s.main), w), s.queues[w], s.workers[w])
  }

  /** Joined queues have nothing unfinished; exactly the stopped workers know it; reaped ones have left. */
  ghost predicate ThreadsInv<T, S, R>(job: Job<T, S, R>, s: State<T, S, R>)
    requires Shaped(job, s)
  {
    && (forall w: nat | w < Joined(job, s.main) && w < job.workers :: s.queues[w].unfinished == 0)
    && (forall w: nat | w < job.workers :: s.workers[w].stop <==> w < Stopped(job, s.main))
    && (forall w: nat | w < Reaped(job, s.main) && w < job.workers :: s.workers[w].phase.Exited?)
  }

  predicate SkippedInv<T, S, R>(job: Job<T, S, R>, s: State<T, S, R>) {
    var n := Position(job, s.main);
    s.skipped + |Filter(job.accepts, job.input[..n])| == n
  }

  /** The invariant of every reachable state. */
  ghost predicate Inv<T, S, R>(job: Job<T, S, R>, s: State<T, S, R>) {
    && Shaped(job, s) && MainBounds(job, s.main)
    && WorkersInv(job, s) && ThreadsInv(job, s) && SkippedInv(job, s)
    && ReadSoFar(job, s.main, s.collected)
  }

  // ---------------------------------------------------------------- preservation, one thread at a time

  lemma SeqRunSnoc<T, S, R>(job: Job<T, S, R>, items: seq<T>, item: T)
    ensures SeqRun(job, items + [item]) == Absorb(job, SeqRun(job, items), item)
  {
    assert (items + [item])[..|items|] == items;
  }

  lemma PopKeeps<T, S, R>(job: Job<T, S, R>, submitted: seq<T>, q: Queue<T>, w: Worker<T, S, R>)
    requires WorkerInv(job, submitted, q, w) && w.phase.Popping? && q.items != []
    ensures WorkerInv(job, submitted, q.(items := q.items[1..]), w.(phase := Holding(q.items[0])))
  {
    assert Pending(q.(items := q.items[1..]), w.(phase := Holding(q.items[0]))) == q.items;
  }

  lemma TakeOneMore<T>(s: seq<T>, x: T, rest: seq<T>)
    requires |rest| < |s| && s == s[..|s| - |rest| - 1] + ([x] + rest)
    ensures s[..|s| - |rest|] == s[..|s| - |rest| - 1] + [x]
    ensures s == s[..|s| - |rest|] + rest
  {
  }

  lemma ProcessKeeps<T, S, R>(job: Job<T, S, R>, submitted: seq<T>, q: Queue<T>, w: Worker<T, S, R>)
    requires WorkerInv(job, submitted, q, w) && w.phase.Holding?
    ensures WorkerInv(job, submitted, q, w.(phase := Finishing, log := Absorb(job, w.log, w.phase.item)))
  {
    TakeOneMore(submitted, w.phase.item, q.items);
    SeqRunSnoc(job, submitted[..|submitted| - |q.items| - 1], w.phase.item);
  }

  lemma SamePendingKeeps<T, S, R>(
    job: Job<T, S, R>, submitted: seq<T>, q: Queue<T>, w: Worker<T, S, R>, q': Queue<T>, w': Worker<T, S, R>)
    requires WorkerInv(job, submitted, q, w) && Pending(q', w') == Pending(q, w) && w'.log == w.log
    requires q'.unfinished == |q'.items| + (if Busy(w') then 1 else 0) && (w'.phase.Exited? ==> w'.stop)
    ensures WorkerInv(job, submitted, q', w')
  {
  }

  /** The turns that neither take an item nor process one. */
  lemma IdleTurn<T, S, R>(job: Job<T, S, R>, q: Queue<T>, w: Worker<T, S, R>)
    requires !w.phase.Holding? && (w.phase.Popping? ==> q.items == [])
    requires q.unfinished == |q.items| + (if Busy(w) then 1 else 0) && (w.phase.Exited? ==> w.stop)
    ensures var (q', w') := WorkerTurn(job, q, w);
            && Pending(q', w') == Pending(q, w) && w'.log == w.log
            && q'.unfinished == |q'.items| + (if Busy(w') then 1 else 0) && (w'.phase.Exited? ==> w'.stop)
  {
  }

  lemma TurnKeepsDrained<T, S, R>(job: Job<T, S, R>, q: Queue<T>, w: Worker<T, S, R>)
    ensures q.unfinished == 0 ==> WorkerTurn(job, q, w).0.unfinished == 0
  {
  }

  /** A worker's own turn keeps its invariant; a joined queue stays joined. */
  lemma WorkerTurnKeeps<T, S, R>(job: Job<T, S, R>, submitted: seq<T>, q: Queue<T>, w: Worker<T, S, R>)
    requires WorkerInv(job, submitted, q, w)
    ensures var (q', w') := WorkerTurn(job, q, w);
            WorkerInv(job, submitted, q', w') && (q.unfinished == 0 ==> q'.unfinished == 0)
  {
    TurnKeepsDrained(job, q, w);
    if w.phase.Holding? {
      ProcessKeeps(job, submitted, q, w);
    } else if w.phase.Popping? && q.items != [] {
      PopKeeps(job, submitted, q, w);
    } else {
      var (q', w') := WorkerTurn(job, q, w);
      IdleTurn(job, q, w);
      SamePendingKeeps(job, submitted, q, w, q', w');
    }
  }

  /** Submitting an item to a worker keeps its invariant. */
  lemma PushKeeps<T, S, R>(
    job: Job<T, S, R>, submitted: seq<T>, q: Queue<T>, w: Worker<T, S, R>, item: T)
    requires WorkerInv(job, submitted, q, w)
    ensures WorkerInv(job, submitted + [item], Push(q, item), w)
  {
    assert Pending(Push(q, item), w) == Pending(q, w) + [item];
    SubmitOneMore(submitted, Pending(q, w), item);
  }

  lemma SubmitOneMore<T>(submitted: seq<T>, pending: seq<T>, item: T)
    requires |pending| <= |submitted| && submitted == submitted[..|submitted| - |pending|] + pending
    ensures var more, waiting := submitted + [item], pending + [item];
            && |waiting| <= |more| && more == more[..|more| - |waiting|] + waiting
            && more[..|more| - |waiting|] == submitted[..|submitted| - |pending|]
  {
  }

  /** A worker whose queue has no unfinished task has processed everything submitted to it. */
  lemma DrainedIsComplete<T, S, R>(
    job: Job<T, S, R>, submitted: seq<T>, q: Queue<T>, w: Worker<T, S, R>)
    requires WorkerInv(job, submitted, q, w) && q.unfinished == 0
    ensures Pending(q, w) == [] && w.log == SeqRun(job, submitted)
  {
    assert submitted[..|submitted|] == submitted;
  }

  lemma SubmittedGrows<T, S, R>(job: Job<T, S, R>, n: nat, w: nat)
    requires n < |job.input|
    ensures Submitted(job, n + 1, w) ==
              if RoutedTo(job, w)(job.input[n]) then Submitted(job, n, w) + [job.input[n]] else Submitted(job, n, w)
    ensures |Filter(job.accepts, job.input[..n + 1])| ==
              |Filter(job.accepts, job.input[..n])| + if job.accepts(job.input[n]) then 1 else 0
  {
    assert job.input[..n + 1] == job.input[..n] + [job.input[n]];
    FilterSnoc(RoutedTo(job, w), job.input[..n], job.input[n]);
    FilterSnoc(job.accepts, job.input[..n], job.input[n]);
  }

  lemma NothingSubmitted<T, S, R>(job: Job<T, S, R>, w: nat)
    ensures Submitted(job, 0, w) == [] && Filter(job.accepts, job.input[..0]) == []
  {
    assert job.input[..0] == [];
  }

  lemma NewWorkerInv<T, S, R>(job: Job<T, S, R>)
    ensures WorkerInv(job, [], Queue([], 0), Worker(Checking, NewLog(job), false))
  {
  }

  lemma StartWorkers<T, S, R>(job: Job<T, S, R>)
    requires ValidJob(job)
    ensures WorkersInv(job, Start(job))
  {
    var s := Start(job);
    forall w: nat | w < job.workers ensures WorkerInv(job, Submitted(job, 0, w), s.queues[w], s.workers[w]) {
      NothingSubmitted(job, w);
      NewWorkerInv(job);
    }
  }

  lemma StartThreads<T, S, R>(job: Job<T, S, R>)
    requires ValidJob(job)
    ensures ThreadsInv(job, Start(job)) && MainBounds(job, Start(job).main)
  {
  }

  lemma StartReads<T, S, R>(job: Job<T, S, R>)
    requires ValidJob(job)
    ensures SkippedInv(job, Start(job)) && ReadSoFar(job, Start(job).main, Start(job).collected)
  {
    NothingSubmitted(job, 0);
  }

  lemma StartInv<T, S, R>(job: Job<T, S, R>)
    requires ValidJob(job)
    ensures Inv(job, Start(job))
  {
    StartThreads(job);
    StartReads(job);
    StartWorkers(job);
  }

  /** What submitting an item does to one worker's queue. */
  lemma SubmitKeepsWorker<T, S, R>(
    job: Job<T, S, R>, submitted: seq<T>, q: Queue<T>, w: Worker<T, S, R>, item: T, mine: bool)
    requires WorkerInv(job, submitted, q, w)
    ensures WorkerInv(job, if mine then submitted + [item] else submitted, if mine then Push(q, item) else q, w)
  {
    if mine { PushKeeps(job, submitted, q, w, item); }
  }

  /** The turn that submits an item, or skips it, seen from one worker. */
  lemma SubmitTurn<T, S, R>(job: Job<T, S, R>, s: State<T, S, R>, w: nat)
    requires Shaped(job, s) && s.main.Submitting? && s.main.next < |job.input| && w < job.workers
    ensures var item, s' := job.input[s.main.next], MainTurn(job, s);
            && Position(job, s'.main) == s.main.next + 1 && s'.workers == s.workers
            && s'.queues[w] == if RoutedTo(job, w)(item) then Push(s.queues[w], item) else s.queues[w]
  {
  }

  lemma SubmitKeepsOne<T, S, R>(job: Job<T, S, R>, s: State<T, S, R>, w: nat)
    requires Shaped(job, s) && WorkersInv(job, s) && s.main.Submitting? && s.main.next < |job.input| && w < job.workers
    ensures var s' := MainTurn(job, s);
            WorkerInv(job, Submitted(job, Position(job, s'.main), w), s'.queues[w], s'.workers[w])
  {
    hide WorkerInv, Submitted;
    var n := s.main.next;
    var item, mine := job.input[n], RoutedTo(job, w)(job.input[n]);
    assert WorkerInv(job, Submitted(job, n, w), s.queues[w], s.workers[w]);
    SubmitKeepsWorker(job, Submitted(job, n, w), s.queues[w], s.workers[w], item, mine);
    SubmitTurn(job, s, w);
    SubmittedGrows(job, n, w);
  }

  lemma SubmitKeepsWorkers<T, S, R>(job: Job<T, S, R>, s: State<T, S, R>)
    requires Shaped(job, s) && WorkersInv(job, s) && s.main.Submitting? && s.main.next < |job.input|
    ensures WorkersInv(job, MainTurn(job, s))
  {
    hide WorkerInv, Submitted;
    var s' := MainTurn(job, s);
    forall w: nat | w < job.workers
      ensures WorkerInv(job, Submitted(job, Position(job, s'.main), w), s'.queues[w], s'.workers[w])
    {
      SubmitKeepsOne(job, s, w);
    }
  }

  lemma SubmitKeepsThreads<T, S, R>(job: Job<T, S, R>, s: State<T, S, R>)
    requires Shaped(job, s) && ThreadsInv(job, s) && s.main.Submitting? && s.main.next < |job.input|
    ensures ThreadsInv(job, MainTurn(job, s))
  {
  }

  lemma SubmitKeepsSkipped<T, S, R>(job: Job<T, S, R>, s: State<T, S, R>)
    requires Shaped(job, s) && SkippedInv(job, s) && s.main.Submitting? && s.main.next < |job.input|
    ensures SkippedInv(job, MainTurn(job, s))
  {
    SubmittedGrows(job, s.main.next, 0);
    assert Position(job, MainTurn(job, s).main) == s.main.next + 1;
  }

  lemma SubmitKeeps<T, S, R>(job: Job<T, S, R>, s: State<T, S, R>)
    requires Inv(job, s) && s.main.Submitting? && s.main.next < |job.input|
    ensures Inv(job, MainTurn(job, s))
  {
    var s' := MainTurn(job, s);
    SubmitKeepsWorkers(job, s);
    SubmitKeepsThreads(job, s);
    SubmitKeepsSkipped(job, s);
    assert MainBounds(job, s'.main) && ReadSoFar(job, s'.main, s'.collected);
  }

  /** Once submission is over, a turn that at most raises stop flags keeps every worker's invariant. */
  lemma FlagsKeepWorkers<T, S, R>(job: Job<T, S, R>, s: State<T, S, R>, s': State<T, S, R>)
    requires Shaped(job, s) && Shaped(job, s') && WorkersInv(job, s)
    requires s'.queues == s.queues && Position(job, s'.main) == Position(job, s.main)
    requires forall w | 0 <= w < job.workers ::
               s'.workers[w] == s.workers[w] || s'.workers[w] == s.workers[w].(stop := true)
    ensures WorkersInv(job, s')
  {
    forall w: nat | w < job.workers
      ensures WorkerInv(job, Submitted(job, Position(job, s'.main), w), s'.queues[w], s'.workers[w])
    {
      var sub, q := Submitted(job, Position(job, s.main), w), s.queues[w];
      assert WorkerInv(job, sub, q, s.workers[w]);
      FlagKeeps(job, sub, q, s.workers[w]);
    }
  }

  lemma FlagKeeps<T, S, R>(job: Job<T, S, R>, submitted: seq<T>, q: Queue<T>, w: Worker<T, S, R>)
    requires WorkerInv(job, submitted, q, w)
    ensures WorkerInv(job, submitted, q, w.(stop := true))
  {
    assert Pending(q, w.(stop := true)) == Pending(q, w);
  }

  /** When every queue has been joined, all are drained at once, and every log is finished. */
  lemma JoinedIsComplete<T, S, R>(job: Job<T, S, R>, s: State<T, S, R>, w: nat)
    requires Inv(job, s) && Joined(job, s.main) == job.workers && !s.main.Submitting? && w < job.workers
    ensures s.queues[w] == Queue([], 0) && s.workers[w].log == Share(job, w) && !Busy(s.workers[w])
  {
    DrainedIsComplete(job, Submitted(job, |job.input|, w), s.queues[w], s.workers[w]);
  }

  lemma {:induction false} ResultsAreExpected<T, S, R>(job: Job<T, S, R>, workers: seq<Worker<T, S, R>>)
    requires forall w | 0 <= w < |workers| :: workers[w].log == Share(job, w)
    ensures AllResults(workers) == ExpectedResults(job, |workers|)
  {
    if workers != [] { ResultsAreExpected(job, workers[..|workers| - 1]); }
  }

  ghost predicate Finished<T, S, R>(job: Job<T, S, R>, workers: seq<Worker<T, S, R>>) {
    |workers| == job.workers && forall w | 0 <= w < |workers| :: workers[w].log == Share(job, w)
  }

  lemma StatsAreExpected<T, S, R>(job: Job<T, S, R>, workers: seq<Worker<T, S, R>>)
    requires Finished(job, workers)
    ensures Stats(workers) == ExpectedStats(job)
  {
    forall w | 0 <= w < |workers| ensures Stats(workers)[w] == ExpectedStats(job)[w] {
      assert workers[w].log == Share(job, w);
    }
  }

  lemma ErrorsAreExpected<T, S, R>(job: Job<T, S, R>, workers: seq<Worker<T, S, R>>)
    requires Finished(job, workers)
    ensures ErrorStats(workers) == ExpectedErrors(job)
  {
    forall w: nat | w < |workers| ensures workers[w].log.errors == Share(job, w).errors {
      assert workers[w].log == Share(job, w);
    }
    assert ErrorStats(workers).Keys == ExpectedErrors(job).Keys;
  }

  lemma JoinedIsFinished<T, S, R>(job: Job<T, S, R>, s: State<T, S, R>)
    requires Inv(job, s) && s.main.Reading?
    ensures Finished(job, s.workers)
  {
    forall w: nat | w < job.workers ensures s.workers[w].log == Share(job, w) {
      JoinedIsComplete(job, s, w);
    }
  }

  /** What the main thread reads from finished workers is what it must read. */
  lemma FinishedReads<T, S, R>(job: Job<T, S, R>, s: State<T, S, R>)
    requires Shaped(job, s) && MainBounds(job, s.main) && s.main.Reading? && Finished(job, s.workers)
    requires ReadSoFar(job, s.main, s.collected)
    ensures ReadSoFar(job, MainTurn(job, s).main, MainTurn(job, s).collected)
  {
    match s.main.done {
      case 0 => StatsAreExpected(job, s.workers);
      case 1 => ResultsAreExpected(job, s.workers);
      case _ => ErrorsAreExpected(job, s.workers);
    }
  }

  lemma ReadingKeepsRead<T, S, R>(job: Job<T, S, R>, s: State<T, S, R>)
    requires Inv(job, s) && s.main.Reading?
    ensures ReadSoFar(job, MainTurn(job, s).main, MainTurn(job, s).collected)
  {
    JoinedIsFinished(job, s);
    FinishedReads(job, s);
  }

  lemma MainTurnKeepsThreads<T, S, R>(job: Job<T, S, R>, s: State<T, S, R>)
    requires Shaped(job, s) && MainBounds(job, s.main) && ThreadsInv(job, s)
    requires !s.main.Submitting? || s.main.next >= |job.input|
    ensures ThreadsInv(job, MainTurn(job, s)) && MainBounds(job, MainTurn(job, s).main)
  {
  }

  lemma MainTurnOnlyFlags<T, S, R>(job: Job<T, S, R>, s: State<T, S, R>)
    requires Shaped(job, s) && (!s.main.Submitting? || s.main.next >= |job.input|)
    ensures var s' := MainTurn(job, s);
            && s'.queues == s.queues && Position(job, s'.main) == Position(job, s.main) && s'.skipped == s.skipped
            && forall w | 0 <= w < job.workers ::
                 s'.workers[w] == s.workers[w] || s'.workers[w] == s.workers[w].(stop := true)
  {
  }

  lemma OtherTurnReadsNothing<T, S, R>(job: Job<T, S, R>, s: State<T, S, R>)
    requires Shaped(job, s) && !s.main.Reading?
    ensures Readings(MainTurn(job, s).main) == Readings(s.main) && MainTurn(job, s).collected == s.collected
  {
  }

  lemma LaterTurnKeeps<T, S, R>(job: Job<T, S, R>, s: State<T, S, R>)
    requires Inv(job, s) && (!s.main.Submitting? || s.main.next >= |job.input|)
    ensures Inv(job, MainTurn(job, s))
  {
    var s' := MainTurn(job, s);
    MainTurnOnlyFlags(job, s);
    FlagsKeepWorkers(job, s, s');
    MainTurnKeepsThreads(job, s);
    if s.main.Reading? { ReadingKeepsRead(job, s); } else { OtherTurnReadsNothing(job, s); }
  }

  /** What one worker's turn does to the whole state. */
  lemma WorkTurn<T, S, R>(job: Job<T, S, R>, s: State<T, S, R>, w: nat)
    requires Shaped(job, s) && w < job.workers
    ensures var s' := Turn(job, s, Work(w));
            && s'.main == s.main && (s'.queues[w], s'.workers[w]) == WorkerTurn(job, s.queues[w], s.workers[w])
            && forall v: nat | v < job.workers && v != w :: s'.queues[v] == s.queues[v] && s'.workers[v] == s.workers[v]
  {
  }

  lemma WorkKeepsWorkers<T, S, R>(job: Job<T, S, R>, s: State<T, S, R>, w: nat)
    requires Shaped(job, s) && WorkersInv(job, s) && w < job.workers
    ensures WorkersInv(job, Turn(job, s, Work(w)))
  {
    var s', n := Turn(job, s, Work(w)), Position(job, s.main);
    WorkTurn(job, s, w);
    forall v: nat | v < job.workers ensures WorkerInv(job, Submitted(job, n, v), s'.queues[v], s'.workers[v]) {
      assert WorkerInv(job, Submitted(job, n, v), s.queues[v], s.workers[v]);
      if v == w { WorkerTurnKeeps(job, Submitted(job, n, w), s.queues[w], s.workers[w]); }
    }
  }

  lemma WorkKeepsThreads<T, S, R>(job: Job<T, S, R>, s: State<T, S, R>, w: nat)
    requires Shaped(job, s) && ThreadsInv(job, s) && w < job.workers
    requires s.queues[w].unfinished == 0 ==> WorkerTurn(job, s.queues[w], s.workers[w]).0.unfinished == 0
    ensures ThreadsInv(job, Turn(job, s, Work(w)))
  {
  }

  lemma TurnKeeps<T, S, R>(job: Job<T, S, R>, s: State<T, S, R>, a: Actor)
    requires Inv(job, s)
    ensures Inv(job, Turn(job, s, a))
  {
    match a {
      case Main =>
        if s.main.Submitting? && s.main.next < |job.input| { SubmitKeeps(job, s); } else { LaterTurnKeeps(job, s); }
      case Work(w) =>
        if w < job.workers {
          WorkKeepsWorkers(job, s, w);
          WorkerTurnKeeps(job, Submitted(job, Position(job, s.main), w), s.queues[w], s.workers[w]);
          WorkKeepsThreads(job, s, w);
        }
    }
  }

  lemma {:induction false} ContinueKeeps<T, S, R>(job: Job<T, S, R>, s: State<T, S, R>, schedule: seq<Actor>)
    requires Inv(job, s)
    ensures Inv(job, Continue(job, s, schedule))
    decreases |schedule|
  {
    if schedule != [] {
      TurnKeeps(job, s, schedule[0]);
      ContinueKeeps(job, Turn(job, s, schedule[0]), schedule[1..]);
    }
  }

  /** The invariant holds after every schedule whatsoever. */
  lemma Reachable<T, S, R>(job: Job<T, S, R>, schedule: seq<Actor>)
    requires ValidJob(job)
    ensures Inv(job, Run(job, schedule))
  {
    StartInv(job);
    ContinueKeeps(job, Start(job), schedule);
  }

  // ---------------------------------------------------------------- the latest error

  /** What a lone processor answers on item `i`, after the items before it. */
  function AnswerAt<T, S, R>(job: Job<T, S, R>, items: seq<T>, i: nat): Outcome<R>
    requires i < |items|
  {
    job.proc(SeqRun(job, items[..i]).state, items[i]).1
  }

  /** Item `i` failed with this error, and no later item failed. */
  ghost predicate FailsLast<T, S, R>(job: Job<T, S, R>, items: seq<T>, i: nat, error: string) {
    && i < |items| && AnswerAt(job, items, i) == Raised(error)
    && forall j: nat | i < j < |items| :: AnswerAt(job, items, j).Returned?
  }

  lemma AnswersStay<T, S, R>(job: Job<T, S, R>, items: seq<T>, i: nat)
    requires i < |items| - 1
    ensures AnswerAt(job, items[..|items| - 1], i) == AnswerAt(job, items, i)
  {
    assert items[..|items| - 1][..i] == items[..i];
  }

  lemma LastFails<T, S, R>(job: Job<T, S, R>, items: seq<T>, error: string, i: nat)
    requires items != [] && AnswerAt(job, items, |items| - 1).Raised?
    ensures FailsLast(job, items, i, error) <==>
              i == |items| - 1 && error == AnswerAt(job, items, |items| - 1).error
  {
    var n: nat := |items| - 1;
    assert AnswerAt(job, items, n).Raised?;
  }

  lemma EarlierFails<T, S, R>(job: Job<T, S, R>, items: seq<T>, error: string, i: nat)
    requires items != [] && AnswerAt(job, items, |items| - 1).Returned?
    ensures FailsLast(job, items, i, error) <==> FailsLast(job, items[..|items| - 1], i, error)
  {
    var n: nat := |items| - 1;
    var init := items[..n];
    assert AnswerAt(job, items, n).Returned?;
    forall j: nat | j < n ensures AnswerAt(job, init, j) == AnswerAt(job, items, j) {
      AnswersStay(job, items, j);
    }
    if FailsLast(job, init, i, error) {
      forall j: nat | i < j < |items| ensures AnswerAt(job, items, j).Returned? {
        if j < n { assert AnswerAt(job, init, j).Returned?; }
      }
    }
  }

  lemma ErrorStep<T, S, R>(job: Job<T, S, R>, items: seq<T>)
    requires items != []
    ensures var answer := AnswerAt(job, items, |items| - 1);
            SeqRun(job, items).lastError ==
              if answer.Raised? then Some(answer.error) else SeqRun(job, items[..|items| - 1]).lastError
  {
  }

  lemma NothingFails<T, S, R>(job: Job<T, S, R>, error: string)
    ensures SeqRun(job, []).lastError == None && forall i: nat :: !FailsLast(job, [], i, error)
  {
  }

  /** The error a worker remembers is that of the last item that failed. */
  lemma {:induction false} LastErrorIsLatest<T, S, R>(job: Job<T, S, R>, items: seq<T>, error: string)
    ensures SeqRun(job, items).lastError == Some(error) <==> exists i: nat :: FailsLast(job, items, i, error)
  {
    hide FailsLast;
    if items == [] {
      NothingFails(job, error);
    } else {
      var n := |items| - 1;
      var init := items[..n];
      LastErrorIsLatest(job, init, error);
      ErrorStep(job, items);
      if AnswerAt(job, items, n).Raised? {
        LastFails(job, items, error, n);
        forall i: nat ensures FailsLast(job, items, i, error) ==> i == n { LastFails(job, items, error, i); }
        assert FailsLast(job, items, n, error) <==> error == AnswerAt(job, items, n).error;
      } else {
        forall i: nat ensures FailsLast(job, items, i, error) <==> FailsLast(job, init, i, error) {
          EarlierFails(job, items, error, i);
        }
      }
    }
  }

  // ---------------------------------------------------------------- the order of the results

  /** The number of results of the workers before `w`. */
  function Before<T, S, R>(workers: seq<Worker<T, S, R>>, w: nat): nat
    requires w <= |workers|
  {
    if w == 0 then 0 else Before(workers, w - 1) + |workers[w - 1].log.results|
  }

  lemma {:induction false} BeforeIsLocal<T, S, R>(workers: seq<Worker<T, S, R>>, n: nat, w: nat)
    requires w <= n <= |workers|
    ensures Before(workers[..n], w) == Before(workers, w)
  {
    if w > 0 { BeforeIsLocal(workers, n, w - 1); }
  }

  /** Result `k` of worker `w` stands behind those of the workers before it. */
  lemma {:induction false} ResultsByWorker<T, S, R>(workers: seq<Worker<T, S, R>>, w: nat, k: nat)
    requires w < |workers| && k < |workers[w].log.results|
    ensures |AllResults(workers)| == Before(workers, |workers|)
    ensures Before(workers, w) + k < |AllResults(workers)|
    ensures AllResults(workers)[Before(workers, w) + k] == workers[w].log.results[k]
    decreases |workers|
  {
    var init := workers[..|workers| - 1];
    ResultsAddUp(workers);
    ResultsAddUp(init);
    BeforeIsLocal(workers, |init|, |init|);
    if w < |init| {
      BeforeIsLocal(workers, |init|, w);
      ResultsByWorker(init, w, k);
    }
  }

  lemma {:induction false} ResultsAddUp<T, S, R>(workers: seq<Worker<T, S, R>>)
    ensures |AllResults(workers)| == Before(workers, |workers|)
  {
    if workers != [] {
      ResultsAddUp(workers[..|workers| - 1]);
      BeforeIsLocal(workers, |workers| - 1, |workers| - 1);
    }
  }

  // ---------------------------------------------------------------- what a finished run computed

  function ShareSize<T, S, R>(job: Job<T, S, R>, n: nat): nat -> int
    requires n <= |job.input|
  {
    (w: nat) => |Submitted(job, n, w)|
  }

  /** Counting by worker: the shares of the workers make up the accepted input. */
  lemma {:induction false} SharesAddUp<T, S, R>(job: Job<T, S, R>, n: nat)
    requires ValidJob(job) && n <= |job.input|
    ensures Sum(job.workers, ShareSize(job, n)) == |Filter(job.accepts, job.input[..n])|
  {
    var f := ShareSize(job, n);
    if n == 0 {
      forall w: nat ensures f(w) == 0 { NothingSubmitted(job, w); }
      NothingSubmitted(job, 0);
      SumZero(job.workers, f);
    } else {
      var item, g := job.input[n - 1], ShareSize(job, n - 1);
      SharesAddUp(job, n - 1);
      forall w: nat ensures f(w) == g(w) + if RoutedTo(job, w)(item) then 1 else 0 {
        SubmittedGrows(job, n - 1, w);
      }
      SubmittedGrows(job, n - 1, 0);
      if job.accepts(item) {
        SumBump(job.workers, g, f, job.route(item), 1);
      } else {
        SumEqual(job.workers, f, g);
      }
    }
  }

  /** Any interleaving that finishes has read, worker by worker, exactly what one sequential processor computes from
      that worker's share, and has skipped exactly the rejected items. */
  lemma EveryScheduleAgrees<T, S, R>(job: Job<T, S, R>, schedule: seq<Actor>)
    requires ValidJob(job) && Run(job, schedule).main.Done?
    ensures var s := Run(job, schedule);
            && s.collected == Collected(ExpectedStats(job), ExpectedResults(job, job.workers), ExpectedErrors(job))
            && s.skipped == |job.input| - |Filter(job.accepts, job.input)|
            && forall w: nat | w < job.workers :: s.workers[w].log == Share(job, w) && s.queues[w] == Queue([], 0)
  {
    var s := Run(job, schedule);
    Reachable(job, schedule);
    assert job.input[..|job.input|] == job.input;
    forall w: nat | w < job.workers ensures s.workers[w].log == Share(job, w) && s.queues[w] == Queue([], 0) {
      JoinedIsComplete(job, s, w);
    }
  }

  /** A finished run's statistics are the numbers of results, its error statistics the numbers of submitted items that
      have none, for the workers where there are any. */
  lemma StatsAreResults<T, S, R>(job: Job<T, S, R>, schedule: seq<Actor>, w: nat)
    requires ValidJob(job) && Run(job, schedule).main.Done? && w < job.workers
    ensures var s := Run(job, schedule);
            var results, submitted := |s.workers[w].log.results|, |Submitted(job, |job.input|, w)|;
            && |s.collected.stats| == job.workers && s.collected.stats[w] == results
            && (w in s.collected.errors <==> results < submitted)
            && (w in s.collected.errors ==> s.collected.errors[w] == submitted - results)
  {
    EveryScheduleAgrees(job, schedule);
  }

  /** No item is lost: skipped, processed and failed items add up to the input. */
  lemma NothingIsLost<T, S, R>(job: Job<T, S, R>, schedule: seq<Actor>)
    requires ValidJob(job) && Run(job, schedule).main.Done?
    ensures var s := Run(job, schedule);
            s.skipped + Sum(job.workers, (w: nat) => Share(job, w).processed + Share(job, w).errors) == |job.input|
  {
    EveryScheduleAgrees(job, schedule);
    SharesAddUp(job, |job.input|);
    assert job.input[..|job.input|] == job.input;
    SumEqual(job.workers, ShareSize(job, |job.input|), (w: nat) => Share(job, w).processed + Share(job, w).errors);
  }
}
