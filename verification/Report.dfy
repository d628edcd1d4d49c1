/** `V2Pipeline._build_report`: what the report of a finished run says. */
module Report {
  import opened Base
  import opened Rules
  import opened Tracker
  import opened Sightings
  import opened Processor
  import opened Runs
  import opened Verdicts
  import opened Balancer
  import opened Pool
  import opened PoolInvariant
  import opened Pipeline
  import PoolObjects

  datatype Report = Report(
    totalPackets: nat, forwarded: nat, dropped: nat, skipped: nat,
    applications: map<AppType, nat>, workers: seq<nat>, errors: map<nat, nat>, totalFlows: nat)

  type Workers = seq<Worker<Packet, Table, Verdict>>

  // ---------------------------------------------------------------- building the report

  function Decided(d: Decision): Verdict -> bool {
    (v: Verdict) => v.decision == d
  }

  /** The live flow a result refers to: the one filed under its key in the table of the worker that holds it. */
  function LiveFlow(workers: Workers, key: Key): Option<FlowState> {
    if workers == [] then None
    else
      var last := workers[|workers| - 1].log.state;
      if key in last then Some(last[key]) else LiveFlow(workers[..|workers| - 1], key)
  }

  /** The result's flow has this application now, whatever it had when the result was made. */
  function LiveApp(workers: Workers, app: AppType): Verdict -> bool {
    (v: Verdict) => LiveFlow(workers, v.seen.key).Some? && LiveFlow(workers, v.seen.key).value.app == app
  }

  /** `sum(... get_flow_count() ...)`. */
  function TotalFlows(workers: Workers): nat {
    if workers == [] then 0 else TotalFlows(workers[..|workers| - 1]) + |workers[|workers| - 1].log.state|
  }

  /** A counter: the applications that occur, with how often they do. */
  ghost function Counter(count: AppType -> nat): map<AppType, nat> {
    map app: AppType | count(app) > 0 :: count(app)
  }

  ghost function LiveCounts(workers: Workers, results: seq<Verdict>): AppType -> nat {
    app => |Filter(LiveApp(workers, app), results)|
  }

  /** `_build_report`, from what the main thread has collected and the workers' flow tables as they are. */
  ghost function BuildReport(s: State<Packet, Table, Verdict>): Report {
    var results := s.collected.results;
    Report(
      |results|, |Filter(Decided(FORWARD), results)|, |Filter(Decided(DROP), results)|, s.skipped,
      Counter(LiveCounts(s.workers, results)), s.collected.stats, s.collected.errors, TotalFlows(s.workers))
  }

  // ---------------------------------------------------------------- the report of a sequential run

  /** The packets counted by the flows filed under `keys`. */
  ghost function SumCounts(t: Table, keys: set<Key>): nat
    requires keys <= t.Keys
  {
    if keys == {} then 0
    else
      var k :| k in keys;
      t[k].packetCount + SumCounts(t, keys - {k})
  }

  /** The total packet count of the flows whose final application is `app`. */
  ghost function PacketsOfApp(t: Table): AppType -> nat {
    app => SumCounts(t, Selected(t, HasApp(t, app)))
  }

  function HasApp(t: Table, app: AppType): Key -> bool {
    (key: Key) => key in t && t[key].app == app
  }

  function Selected(t: Table, sel: Key -> bool): set<Key> {
    set k | k in t && sel(k)
  }

  /** How many of the kept packets hash to each worker. */
  ghost function PerWorker(balancer: FlowBalancer, packets: seq<Packet>): seq<nat> {
    seq(balancer.workerCount, w requires w >= 0 => |Filter(InShard(OnWorker(balancer, w)), Kept(packets))|)
  }

  /** The same report without threads: `stats` is the only field that knows of workers. */
  ghost function SequentialReport(policy: Policy, packets: seq<Packet>, stats: seq<nat>): Report {
    var t, results := Run2(policy, Kept(packets)), Results2(policy, Kept(packets));
    Report(
      |results|, |Filter(Decided(FORWARD), results)|, |Filter(Decided(DROP), results)|,
      |packets| - |Kept(packets)|, Counter(PacketsOfApp(t)), stats, map[], |t|)
  }

  // ---------------------------------------------------------------- results: a permutation of the sequential ones

  function BelowWorker(balancer: FlowBalancer, n: nat): Key -> bool {
    (key: Key) => key.Some? && WorkerOf(balancer, key.value) < n
  }

  /** What a test counts among the results that workers below `n` must deliver. */
  ghost function Delivered(
    p: Verdict -> bool, policy: Policy, balancer: FlowBalancer, packets: seq<Packet>, n: nat): multiset<Verdict>
  {
    multiset(Filter(p, ExpectedResults(PipelineJob(policy, balancer, packets), n)))
  }

  /** What a test counts among the sequential results of flows below worker `n`. */
  ghost function Owed(p: Verdict -> bool, balancer: FlowBalancer, rs: seq<Verdict>, n: nat): multiset<Verdict> {
    Bag(p, OfShard(BelowWorker(balancer, n)), rs)
  }

  /** The results of the flows below worker `n + 1` are those below `n` with those of worker `n`. */
  lemma BelowSplits(p: Verdict -> bool, balancer: FlowBalancer, n: nat, rs: seq<Verdict>)
    ensures Owed(p, balancer, rs, n + 1) ==
              Owed(p, balancer, rs, n) + Bag(p, OfShard(OnWorker(balancer, n)), rs)
  {
    FilterPartition(p, OfShard(BelowWorker(balancer, n)), OfShard(OnWorker(balancer, n)),
                    OfShard(BelowWorker(balancer, n + 1)), rs);
  }

  lemma FilterJoins(p: Verdict -> bool, s: seq<Verdict>, t: seq<Verdict>)
    ensures multiset(Filter(p, s + t)) == multiset(Filter(p, s)) + multiset(Filter(p, t))
  {
    FilterConcat(p, s, t);
  }

  /** The main thread collects worker `n`'s results after those of the workers before it. */
  lemma ExpectedStep(
    p: Verdict -> bool, policy: Policy, balancer: FlowBalancer, packets: seq<Packet>, n: nat)
    requires AllParsed(packets)
    ensures Delivered(p, policy, balancer, packets, n + 1) ==
              Delivered(p, policy, balancer, packets, n)
              + Bag(p, OfShard(OnWorker(balancer, n)), Results2(policy, Kept(packets)))
  {
    var job := PipelineJob(policy, balancer, packets);
    ShareOfRun(policy, balancer, packets, n);
    FilterJoins(p, ExpectedResults(job, n), Share(job, n).results);
  }

  lemma ResultsUpTo(
    p: Verdict -> bool, policy: Policy, balancer: FlowBalancer, packets: seq<Packet>, n: nat)
    requires AllParsed(packets)
    ensures Delivered(p, policy, balancer, packets, n) == Owed(p, balancer, Results2(policy, Kept(packets)), n)
  {
    var rs := Results2(policy, Kept(packets));
    var delivered, owed := (i: nat) => Delivered(p, policy, balancer, packets, i), (i: nat) => Owed(p, balancer, rs, i);
    var more := (i: nat) => Bag(p, OfShard(OnWorker(balancer, i)), rs);
    NoneBelowZero(balancer, rs);
    forall i: nat ensures GrowsBy(delivered, more, i) && GrowsBy(owed, more, i) {
      ExpectedStep(p, policy, balancer, packets, i);
      BelowSplits(p, balancer, i, rs);
    }
    SameGrowth(delivered, owed, more, n);
  }

  lemma NobodyBelowZero(balancer: FlowBalancer, key: Key)
    ensures !BelowWorker(balancer, 0)(key)
  {
    if key.Some? { assert WorkerOf(balancer, key.value) >= 0; }
  }

  lemma {:induction false} NoneBelowZero(balancer: FlowBalancer, rs: seq<Verdict>)
    ensures Filter(OfShard(BelowWorker(balancer, 0)), rs) == []
  {
    if rs != [] {
      NoneBelowZero(balancer, rs[..|rs| - 1]);
      NobodyBelowZero(balancer, rs[|rs| - 1].seen.key);
    }
  }

  lemma AllAreBelow(policy: Policy, balancer: FlowBalancer, packets: seq<Packet>)
    requires AllParsed(packets)
    ensures Filter(OfShard(BelowWorker(balancer, balancer.workerCount)), Results2(policy, Kept(packets)))
         == Results2(policy, Kept(packets))
  {
    var rs := Results2(policy, Kept(packets));
    KeptIsKeyed(packets);
    OneResultEach(policy, Kept(packets));
    forall v | v in rs ensures v.seen.key.Some? {
      var i :| 0 <= i < |rs| && rs[i] == v;
      ResultIsVerdict(policy, Kept(packets), i);
    }
    FilterAll(OfShard(BelowWorker(balancer, balancer.workerCount)), rs);
  }

  /** Seen through any test, the collected results are a permutation of the sequential ones. */
  lemma ResultsArePermuted(
    p: Verdict -> bool, policy: Policy, balancer: FlowBalancer, packets: seq<Packet>, schedule: seq<Actor>)
    requires AllParsed(packets) && Run(PipelineJob(policy, balancer, packets), schedule).main.Done?
    ensures multiset(Filter(p, Run(PipelineJob(policy, balancer, packets), schedule).collected.results))
         == multiset(Filter(p, Results2(policy, Kept(packets))))
  {
    EveryScheduleAgrees(PipelineJob(policy, balancer, packets), schedule);
    ResultsUpTo(p, policy, balancer, packets, balancer.workerCount);
    AllAreBelow(policy, balancer, packets);
  }

  lemma SameSize<T>(s: seq<T>, t: seq<T>)
    requires multiset(s) == multiset(t)
    ensures |s| == |t|
  {
    assert |s| == |multiset(s)| == |multiset(t)| == |t|;
  }

  // ---------------------------------------------------------------- tables: the sequential table in pieces

  /** The workers hold the sequential table in pieces, each worker the flows that hash to it. */
  predicate HoldPieces(balancer: FlowBalancer, whole: Table, workers: Workers) {
    forall w: nat | w < |workers| :: workers[w].log.state == Restrict(whole, OnWorker(balancer, w))
  }

  /** The first workers hold the sequential flows that hash below them. */
  lemma {:induction false} FlowsUpTo(balancer: FlowBalancer, whole: Table, workers: Workers, key: Key)
    requires HoldPieces(balancer, whole, workers)
    ensures LiveFlow(workers, key) == Lookup(Restrict(whole, BelowWorker(balancer, |workers|)), key)
  {
    if workers == [] {
      NobodyBelowZero(balancer, key);
    } else {
      FlowsUpTo(balancer, whole, workers[..|workers| - 1], key);
    }
  }

  lemma {:induction false} TotalUpTo(balancer: FlowBalancer, whole: Table, workers: Workers)
    requires HoldPieces(balancer, whole, workers)
    ensures TotalFlows(workers) == |Restrict(whole, BelowWorker(balancer, |workers|))|
  {
    if workers == [] {
      assert Restrict(whole, BelowWorker(balancer, 0)) == map[];
    } else {
      TotalUpTo(balancer, whole, workers[..|workers| - 1]);
      RestrictSplits(balancer, whole, |workers| - 1);
    }
  }

  /** A worker's keys are those below the next worker and not below itself. */
  lemma BelowOrOn(balancer: FlowBalancer, n: nat, key: Key)
    ensures BelowWorker(balancer, n + 1)(key) == (BelowWorker(balancer, n)(key) || OnWorker(balancer, n)(key))
    ensures !(BelowWorker(balancer, n)(key) && OnWorker(balancer, n)(key))
  {
  }

  /** Two disjoint selections that make up a third. */
  ghost predicate Splits(whole: Key -> bool, f: Key -> bool, g: Key -> bool) {
    forall key :: whole(key) == (f(key) || g(key)) && !(f(key) && g(key))
  }

  lemma SelectedSplits(t: Table, whole: Key -> bool, f: Key -> bool, g: Key -> bool)
    requires Splits(whole, f, g)
    ensures Selected(t, whole) == Selected(t, f) + Selected(t, g) && Selected(t, f) !! Selected(t, g)
  {
  }

  lemma RestrictSplits(balancer: FlowBalancer, whole: Table, n: nat)
    ensures |Restrict(whole, BelowWorker(balancer, n + 1))| ==
              |Restrict(whole, BelowWorker(balancer, n))| + |Restrict(whole, OnWorker(balancer, n))|
  {
    var more, low, here := BelowWorker(balancer, n + 1), BelowWorker(balancer, n), OnWorker(balancer, n);
    forall key ensures more(key) == (low(key) || here(key)) && !(low(key) && here(key)) {
      BelowOrOn(balancer, n, key);
    }
    SelectedSplits(whole, more, low, here);
    SelectedSize(whole, more);
    SelectedSize(whole, low);
    SelectedSize(whole, here);
  }

  lemma SelectedSize(t: Table, sel: Key -> bool)
    ensures |Restrict(t, sel)| == |Selected(t, sel)|
  {
    assert Restrict(t, sel).Keys == Selected(t, sel);
  }

  lemma WorkersHoldTheTable(
    policy: Policy, balancer: FlowBalancer, packets: seq<Packet>, schedule: seq<Actor>, key: Key)
    requires AllParsed(packets) && Run(PipelineJob(policy, balancer, packets), schedule).main.Done?
    ensures var workers := Run(PipelineJob(policy, balancer, packets), schedule).workers;
            var whole := Run2(policy, Kept(packets));
            LiveFlow(workers, key) == Lookup(whole, key) && TotalFlows(workers) == |whole|
  {
    var workers := Run(PipelineJob(policy, balancer, packets), schedule).workers;
    var whole := Run2(policy, Kept(packets));
    forall w: nat | w < |workers| ensures workers[w].log.state == Restrict(whole, OnWorker(balancer, w)) {
      RaceFree(policy, balancer, packets, schedule, w);
    }
    FlowsUpTo(balancer, whole, workers, key);
    TotalUpTo(balancer, whole, workers);
    KeptIsKeyed(packets);
    WholeIsBelow(policy, balancer, Kept(packets));
  }

  lemma WholeIsBelow(policy: Policy, balancer: FlowBalancer, ss: seq<Sighting>)
    requires AllKeyed(ss)
    ensures Restrict(Run2(policy, ss), BelowWorker(balancer, balancer.workerCount)) == Run2(policy, ss)
  {
    Run2IsFiled(policy, ss);
    forall k | k in Run2(policy, ss) ensures k.Some? {
      assert Seen(ss, k);
    }
  }

  // ---------------------------------------------------------------- applications: packets counted by flow

  lemma {:induction false} SumCountsRemove(t: Table, keys: set<Key>, key: Key)
    requires keys <= t.Keys && key in keys
    ensures SumCounts(t, keys) == t[key].packetCount + SumCounts(t, keys - {key})
    decreases |keys|
  {
    var k :| k in keys && SumCounts(t, keys) == t[k].packetCount + SumCounts(t, keys - {k});
    if k != key {
      SumCountsRemove(t, keys - {k}, key);
      SumCountsRemove(t, keys - {key}, k);
      assert keys - {k} - {key} == keys - {key} - {k};
    }
  }

  lemma {:induction false} SumCountsAgree(t: Table, u: Table, keys: set<Key>)
    requires keys <= t.Keys && keys <= u.Keys && forall k | k in keys :: t[k].packetCount == u[k].packetCount
    ensures SumCounts(t, keys) == SumCounts(u, keys)
    decreases |keys|
  {
    if keys != {} {
      var k :| k in keys;
      SumCountsRemove(t, keys, k);
      SumCountsRemove(u, keys, k);
      SumCountsAgree(t, u, keys - {k});
    }
  }

  lemma ProcessCounts(policy: Policy, prior: Option<FlowState>, s: Sighting)
    ensures ProcessFlow(policy, prior, s).packetCount == 1 + if prior.Some? then prior.value.packetCount else 0
  {
  }

  /** One more packet adds one to the count of the selected flows, or nothing. */
  lemma SumCountsStep(policy: Policy, t: Table, s: Sighting, sel: Key -> bool)
    ensures var u := ProcessTable(policy, t, s);
            SumCounts(u, Selected(u, sel)) == SumCounts(t, Selected(t, sel)) + if sel(s.key) then 1 else 0
  {
    var u := ProcessTable(policy, t, s);
    var before, after := Selected(t, sel), Selected(u, sel);
    ProcessCounts(policy, Lookup(t, s.key), s);
    if sel(s.key) {
      assert after == before + {s.key};
      assert after - {s.key} == before - {s.key};
      SumCountsRemove(u, after, s.key);
      SumCountsAgree(u, t, before - {s.key});
      if s.key in t { SumCountsRemove(t, before, s.key); } else { assert before - {s.key} == before; }
    } else {
      assert after == before;
      SumCountsAgree(u, t, before);
    }
  }

  /** The results of selected flows are as many as those flows have counted packets. */
  lemma {:induction false} ResultsOfSelected(policy: Policy, ss: seq<Sighting>, sel: Key -> bool)
    requires AllKeyed(ss)
    ensures |Filter(OfShard(sel), Results2(policy, ss))| ==
              SumCounts(Run2(policy, ss), Selected(Run2(policy, ss), sel))
  {
    if ss == [] {
      assert Selected(map[], sel) == {};
    } else {
      var init, last := ss[..|ss| - 1], ss[|ss| - 1];
      ResultsOfSelected(policy, init, sel);
      Snoc(ss);
      Run2Snoc(policy, init, last);
      Run2IsFiled(policy, init);
      JudgeKeyed(policy, Run2(policy, init), last);
      FilterCollect(sel, Results2(policy, init), Judge(policy, Run2(policy, init), last));
      SumCountsStep(policy, Run2(policy, init), last, sel);
    }
  }

  lemma {:induction false} FilterEqual<T>(f: T -> bool, g: T -> bool, s: seq<T>)
    requires forall x | x in s :: f(x) == g(x)
    ensures Filter(f, s) == Filter(g, s)
  {
    if s != [] { FilterEqual(f, g, s[..|s| - 1]); }
  }

  /** Each application's number is the total packet count of the flows that end as that application. */
  lemma ApplicationCount(
    policy: Policy, balancer: FlowBalancer, packets: seq<Packet>, schedule: seq<Actor>, app: AppType)
    requires AllParsed(packets) && Run(PipelineJob(policy, balancer, packets), schedule).main.Done?
    ensures var s := Run(PipelineJob(policy, balancer, packets), schedule);
            LiveCounts(s.workers, s.collected.results)(app) == PacketsOfApp(Run2(policy, Kept(packets)))(app)
  {
    var s, whole := Run(PipelineJob(policy, balancer, packets), schedule), Run2(policy, Kept(packets));
    var live, sel := LiveApp(s.workers, app), HasApp(whole, app);
    forall v: Verdict ensures live(v) == OfShard(sel)(v) {
      WorkersHoldTheTable(policy, balancer, packets, schedule, v.seen.key);
    }
    FilterEqual(live, OfShard(sel), s.collected.results);
    ResultsArePermuted(OfShard(sel), policy, balancer, packets, schedule);
    SameSize(Filter(OfShard(sel), s.collected.results), Filter(OfShard(sel), Results2(policy, Kept(packets))));
    KeptIsKeyed(packets);
    ResultsOfSelected(policy, Kept(packets), sel);
  }

  // ---------------------------------------------------------------- the report

  lemma {:induction false} KeptSize(packets: seq<Packet>)
    ensures |Kept(packets)| == |Filter(Addressed, packets)|
  {
  }

  lemma ErrorsAreNone(policy: Policy, balancer: FlowBalancer, packets: seq<Packet>)
    requires AllParsed(packets)
    ensures ExpectedErrors(PipelineJob(policy, balancer, packets)) == map[]
  {
    var job := PipelineJob(policy, balancer, packets);
    forall w: nat | w < job.workers ensures Share(job, w).errors == 0 {
      ShareOfRun(policy, balancer, packets, w);
    }
  }

  lemma CountsArePermuted(
    p: Verdict -> bool, policy: Policy, balancer: FlowBalancer, packets: seq<Packet>, schedule: seq<Actor>)
    requires AllParsed(packets) && Run(PipelineJob(policy, balancer, packets), schedule).main.Done?
    ensures |Filter(p, Run(PipelineJob(policy, balancer, packets), schedule).collected.results)|
         == |Filter(p, Results2(policy, Kept(packets)))|
  {
    var results := Run(PipelineJob(policy, balancer, packets), schedule).collected.results;
    ResultsArePermuted(p, policy, balancer, packets, schedule);
    SameSize(Filter(p, results), Filter(p, Results2(policy, Kept(packets))));
  }

  lemma SameCounter(f: AppType -> nat, g: AppType -> nat)
    requires forall app: AppType :: f(app) == g(app)
    ensures Counter(f) == Counter(g)
  {
  }

  lemma ApplicationsAgree(policy: Policy, balancer: FlowBalancer, packets: seq<Packet>, schedule: seq<Actor>)
    requires AllParsed(packets) && Run(PipelineJob(policy, balancer, packets), schedule).main.Done?
    ensures var s := Run(PipelineJob(policy, balancer, packets), schedule);
            Counter(LiveCounts(s.workers, s.collected.results)) == Counter(PacketsOfApp(Run2(policy, Kept(packets))))
  {
    var s := Run(PipelineJob(policy, balancer, packets), schedule);
    var f, g := LiveCounts(s.workers, s.collected.results), PacketsOfApp(Run2(policy, Kept(packets)));
    forall app: AppType ensures f(app) == g(app) {
      ApplicationCount(policy, balancer, packets, schedule, app);
    }
    SameCounter(f, g);
  }

  lemma TotalsAgree(policy: Policy, balancer: FlowBalancer, packets: seq<Packet>, schedule: seq<Actor>)
    requires AllParsed(packets) && Run(PipelineJob(policy, balancer, packets), schedule).main.Done?
    ensures var s := Run(PipelineJob(policy, balancer, packets), schedule);
            && |s.collected.results| == |Results2(policy, Kept(packets))|
            && s.skipped == |packets| - |Kept(packets)|
            && s.collected.errors == map[]
  {
    EveryScheduleAgrees(PipelineJob(policy, balancer, packets), schedule);
    ErrorsAreNone(policy, balancer, packets);
    CountsArePermuted(Any(), policy, balancer, packets, schedule);
    FilterAll(Any(), Run(PipelineJob(policy, balancer, packets), schedule).collected.results);
    FilterAll(Any(), Results2(policy, Kept(packets)));
    KeptSize(packets);
  }

  function Any(): Verdict -> bool {
    (v: Verdict) => true
  }

  lemma {:induction false} VerdictsAreOfShard(policy: Policy, ss: seq<Sighting>, sel: Key -> bool)
    requires AllKeyed(ss)
    ensures |Filter(OfShard(sel), Results2(policy, ss))| == |Filter(InShard(sel), ss)|
  {
    if ss != [] {
      var init, last := ss[..|ss| - 1], ss[|ss| - 1];
      VerdictsAreOfShard(policy, init, sel);
      Run2IsFiled(policy, init);
      JudgeKeyed(policy, Run2(policy, init), last);
      FilterCollect(sel, Results2(policy, init), Judge(policy, Run2(policy, init), last));
    }
  }

  lemma StatsAgree(policy: Policy, balancer: FlowBalancer, packets: seq<Packet>, schedule: seq<Actor>)
    requires AllParsed(packets) && Run(PipelineJob(policy, balancer, packets), schedule).main.Done?
    ensures Run(PipelineJob(policy, balancer, packets), schedule).collected.stats == PerWorker(balancer, packets)
  {
    var job := PipelineJob(policy, balancer, packets);
    EveryScheduleAgrees(job, schedule);
    KeptIsKeyed(packets);
    forall w: nat | w < balancer.workerCount ensures ExpectedStats(job)[w] == PerWorker(balancer, packets)[w] {
      ShareOfRun(policy, balancer, packets, w);
      VerdictsAreOfShard(policy, Kept(packets), OnWorker(balancer, w));
    }
  }

  /** The report of a finished run is the report of the sequential run: except for the per-worker counts it depends on
      neither the schedule, nor the number of workers, nor the checksum. */
  lemma ReportIsSequential(policy: Policy, balancer: FlowBalancer, packets: seq<Packet>, schedule: seq<Actor>)
    requires AllParsed(packets) && Run(PipelineJob(policy, balancer, packets), schedule).main.Done?
    ensures var s := Run(PipelineJob(policy, balancer, packets), schedule);
            BuildReport(s) == SequentialReport(policy, packets, PerWorker(balancer, packets))
  {
    StatsAgree(policy, balancer, packets, schedule);
    TotalsAgree(policy, balancer, packets, schedule);
    ApplicationsAgree(policy, balancer, packets, schedule);
    WorkersHoldTheTable(policy, balancer, packets, schedule, None);
    CountsArePermuted(Decided(FORWARD), policy, balancer, packets, schedule);
    CountsArePermuted(Decided(DROP), policy, balancer, packets, schedule);
  }

  lemma {:induction false} DecisionsAddUp(results: seq<Verdict>)
    ensures |Filter(Decided(FORWARD), results)| + |Filter(Decided(DROP), results)| == |results|
  {
    if results != [] { DecisionsAddUp(results[..|results| - 1]); }
  }

  /** Every packet read is accounted for exactly once, and none fails. */
  lemma PacketsAreConserved(policy: Policy, balancer: FlowBalancer, packets: seq<Packet>, schedule: seq<Actor>)
    requires AllParsed(packets) && Run(PipelineJob(policy, balancer, packets), schedule).main.Done?
    ensures var r := BuildReport(Run(PipelineJob(policy, balancer, packets), schedule));
            && r.skipped + r.forwarded + r.dropped == |packets|
            && r.totalPackets == r.forwarded + r.dropped
            && r.errors == map[]
  {
    ReportIsSequential(policy, balancer, packets, schedule);
    DecisionsAddUp(Results2(policy, Kept(packets)));
    KeptIsKeyed(packets);
    OneResultEach(policy, Kept(packets));
  }

  /** Two finished runs on the same capture, with any two pools and any two schedules, report the same. */
  lemma PoolIsIrrelevant(
    policy: Policy, packets: seq<Packet>, b: FlowBalancer, schedule: seq<Actor>, c: FlowBalancer, other: seq<Actor>)
    requires AllParsed(packets)
    requires Run(PipelineJob(policy, b, packets), schedule).main.Done?
    requires Run(PipelineJob(policy, c, packets), other).main.Done?
    ensures BuildReport(Run(PipelineJob(policy, b, packets), schedule)).(workers := []) ==
              BuildReport(Run(PipelineJob(policy, c, packets), other)).(workers := [])
  {
    ReportIsSequential(policy, b, packets, schedule);
    ReportIsSequential(policy, c, packets, other);
  }

  /** The number of flows reported is the number of distinct five-tuples submitted. */
  lemma FlowsAreTuples(policy: Policy, balancer: FlowBalancer, packets: seq<Packet>, schedule: seq<Actor>)
    requires AllParsed(packets) && Run(PipelineJob(policy, balancer, packets), schedule).main.Done?
    ensures BuildReport(Run(PipelineJob(policy, balancer, packets), schedule)).totalFlows ==
              |set p | p in packets && Addressed(p) :: CreateFiveTuple(p)|
  {
    ReportIsSequential(policy, balancer, packets, schedule);
    TableKeys(policy, packets);
  }

  lemma TableKeys(policy: Policy, packets: seq<Packet>)
    ensures Run2(policy, Kept(packets)).Keys == set p | p in packets && Addressed(p) :: CreateFiveTuple(p)
  {
    Run2IsFiled(policy, Kept(packets));
    forall k ensures Seen(Kept(packets), k) <==> k in (set p | p in packets && Addressed(p) :: CreateFiveTuple(p)) {
      KeysOfKept(packets, k);
    }
  }

  lemma KeysOfKept(packets: seq<Packet>, key: Key)
    ensures Seen(Kept(packets), key) <==> exists p :: p in packets && Addressed(p) && CreateFiveTuple(p) == key
  {
    var kept := Filter(Addressed, packets);
    FilterMembers(Addressed, packets);
    if Seen(Kept(packets), key) {
      var i :| 0 <= i < |Kept(packets)| && Kept(packets)[i].key == key;
      SeeKey(kept[i]);
      assert kept[i] in kept;
    }
    if p :| p in packets && Addressed(p) && CreateFiveTuple(p) == key {
      assert p in kept;
      var i :| 0 <= i < |kept| && kept[i] == p;
      SeeKey(p);
      assert Kept(packets)[i].key == key;
    }
  }

  // ---------------------------------------------------------------- the order of the results

  function SameFlow(key: Key): Key -> bool {
    (k: Key) => k == key
  }

  /** Worker `w`'s share holds all the results of a flow of its own and none of any other. */
  lemma ShareOfFlow(balancer: FlowBalancer, rs: seq<Verdict>, key: Key, w: nat)
    requires key.Some?
    ensures Filter(OfShard(SameFlow(key)), Filter(OfShard(OnWorker(balancer, w)), rs)) ==
              if WorkerOf(balancer, key.value) == w then Filter(OfShard(SameFlow(key)), rs) else []
  {
    if WorkerOf(balancer, key.value) == w {
      FilterAnd(OfShard(OnWorker(balancer, w)), OfShard(SameFlow(key)), OfShard(SameFlow(key)), rs);
    } else {
      var both := (v: Verdict) => false;
      FilterAnd(OfShard(OnWorker(balancer, w)), OfShard(SameFlow(key)), both, rs);
      FilterMembers(both, rs);
      assert Filter(both, rs) == [];
    }
  }

  /** A flow's results among those that workers below `n` must deliver. */
  function FlowDelivered(policy: Policy, balancer: FlowBalancer, packets: seq<Packet>, key: Key, n: nat): seq<Verdict> {
    Filter(OfShard(SameFlow(key)), ExpectedResults(PipelineJob(policy, balancer, packets), n))
  }

  lemma FlowDeliveredStep(policy: Policy, balancer: FlowBalancer, packets: seq<Packet>, key: Key, n: nat)
    requires AllParsed(packets) && key.Some?
    ensures FlowDelivered(policy, balancer, packets, key, n + 1) ==
              FlowDelivered(policy, balancer, packets, key, n)
              + if WorkerOf(balancer, key.value) == n
                then Filter(OfShard(SameFlow(key)), Results2(policy, Kept(packets)))
                else []
  {
    var job := PipelineJob(policy, balancer, packets);
    ShareOfRun(policy, balancer, packets, n);
    ShareOfFlow(balancer, Results2(policy, Kept(packets)), key, n);
    FilterConcat(OfShard(SameFlow(key)), ExpectedResults(job, n), Share(job, n).results);
  }

  /** Position `i` of a growing list adds `whole` when it is `own`, and nothing otherwise. */
  ghost predicate AddsOnlyAt<T>(grown: nat -> seq<T>, own: nat, whole: seq<T>, i: nat) {
    grown(i + 1) == grown(i) + if own == i then whole else []
  }

  lemma {:induction false} AddedOnce<T>(grown: nat -> seq<T>, own: nat, whole: seq<T>, n: nat)
    requires grown(0) == [] && forall i: nat :: AddsOnlyAt(grown, own, whole, i)
    ensures grown(n) == if own < n then whole else []
  {
    if n > 0 {
      AddedOnce(grown, own, whole, n - 1);
      assert AddsOnlyAt(grown, own, whole, n - 1);
    }
  }

  lemma FlowOrderUpTo(policy: Policy, balancer: FlowBalancer, packets: seq<Packet>, key: Key, n: nat)
    requires AllParsed(packets) && key.Some?
    ensures FlowDelivered(policy, balancer, packets, key, n) ==
              if WorkerOf(balancer, key.value) < n then Filter(OfShard(SameFlow(key)), Results2(policy, Kept(packets)))
              else []
  {
    var grown := (i: nat) => FlowDelivered(policy, balancer, packets, key, i);
    var whole := Filter(OfShard(SameFlow(key)), Results2(policy, Kept(packets)));
    forall i: nat ensures AddsOnlyAt(grown, WorkerOf(balancer, key.value), whole, i) {
      FlowDeliveredStep(policy, balancer, packets, key, i);
    }
    AddedOnce(grown, WorkerOf(balancer, key.value), whole, n);
  }

  /** In the collected results, and so in the output file, the packets of each flow keep their capture order and
      carry the sequential verdicts. */
  lemma FlowOrderIsKept(policy: Policy, balancer: FlowBalancer, packets: seq<Packet>, schedule: seq<Actor>, key: Key)
    requires AllParsed(packets) && key.Some? && Run(PipelineJob(policy, balancer, packets), schedule).main.Done?
    ensures Filter(OfShard(SameFlow(key)), Run(PipelineJob(policy, balancer, packets), schedule).collected.results)
         == Filter(OfShard(SameFlow(key)), Results2(policy, Kept(packets)))
  {
    EveryScheduleAgrees(PipelineJob(policy, balancer, packets), schedule);
    FlowOrderUpTo(policy, balancer, packets, key, balancer.workerCount);
  }

  /** The pipeline's objects on a capture, interleaved in any way that lets `run` end, report what one processor would.
      None is the ValueError of a worker count that is not positive. */
  method RunCapture(
    policy: Policy, workerCount: int, checksum: seq<byte> -> nat, packets: seq<Packet>, schedule: seq<Actor>)
    returns (p: Option<PoolObjects.V2Pipeline<Packet, Table, Verdict>>)
    requires AllParsed(packets)
    ensures p.Some? <==> workerCount > 0
    ensures p.Some? && p.value.main.Done? ==>
              BuildReport(p.value.View()) ==
                SequentialReport(policy, packets, PerWorker(FlowBalancer(workerCount, checksum), packets))
  {
    var balancer := CreateBalancer(workerCount, checksum);
    if balancer == None { return None; }
    var pipeline := PoolObjects.RunPipeline(PipelineJob(policy, balancer.value, packets), schedule);
    if pipeline.main.Done? { ReportIsSequential(policy, balancer.value, packets, schedule); }
    p := Some(pipeline);
  }
}
