/** The results of a worker hold live flows: what `_build_report` reads from them once the queues are drained. */
module LiveResults {
  import opened Base
  import opened Rules
  import opened Tracker
  import opened Sightings
  import opened Processor
  import opened Runs
  import opened Verdicts
  import opened Balancer
  import opened PoolInvariant
  import opened Pipeline
  import Report

  function ValueOf(r: Result): Verdict {
    Verdict(r.seen, r.decision)
  }

  /** The result refers to the very object filed under its key, not to a copy. */
  predicate Alias(r: Result, tracker: ConnectionTracker)
    reads tracker
  {
    r.seen.key in tracker.flows && r.flow == tracker.flows[r.seen.key]
  }

  ghost predicate Aliases(results: seq<Result>, tracker: ConnectionTracker)
    reads tracker
  {
    forall i | 0 <= i < |results| :: Alias(results[i], tracker)
  }

  lemma ValuesSnoc(results: seq<Result>, outcome: Option<Verdict>, flow: Flow)
    ensures Map(ValueOf, Collect(results, Live(outcome, flow))) == Collect(Map(ValueOf, results), outcome)
  {
  }

  /** The worker's `try` around `process`: one more packet. */
  method ProcessOne(p: DPIProcessor, packet: Packet, results: seq<Result>) returns (more: seq<Result>)
    requires p.tracker.Valid() && Aliases(results, p.tracker)
    modifies p`processedPackets, p.tracker`flows, p.tracker.flows.Values
    ensures p.tracker.Valid() && p.tracker.Grown() && Aliases(more, p.tracker)
    ensures p.tracker.Contents() == ProcessTable(p.tracker.rules.ToPolicy(), old(p.tracker.Contents()), See(packet))
    ensures Map(ValueOf, more) ==
              Collect(Map(ValueOf, results), Judge(p.tracker.rules.ToPolicy(), old(p.tracker.Contents()), See(packet)))
  {
    ghost var verdict := Judge(p.tracker.rules.ToPolicy(), p.tracker.Contents(), See(packet));
    var result := p.Process(packet);
    more := if result.Some? then results + [result.value] else results;
    ValuesSnoc(results, verdict, p.tracker.flows[See(packet).key]);
    p.tracker.OneFlowChanged(See(packet).key);
  }

  /** One worker's processor fed its packets in order: the whole sequential run, with live flows in the results. */
  method ProcessAll(p: DPIProcessor, packets: seq<Packet>) returns (results: seq<Result>)
    requires p.tracker.Valid() && p.tracker.flows == map[]
    modifies p`processedPackets, p.tracker`flows
    ensures p.tracker.Valid() && Aliases(results, p.tracker)
    ensures p.tracker.Contents() == Run2(p.tracker.rules.ToPolicy(), Map(See, packets))
    ensures Map(ValueOf, results) == Results2(p.tracker.rules.ToPolicy(), Map(See, packets))
  {
    ghost var policy := p.tracker.rules.ToPolicy();
    results := [];
    for i := 0 to |packets|
      invariant p.tracker.Valid() && p.tracker.Grown() && Aliases(results, p.tracker)
      invariant p.tracker.Contents() == Run2(policy, Map(See, packets[..i]))
      invariant Map(ValueOf, results) == Results2(policy, Map(See, packets[..i]))
    {
      MapSnoc(See, packets, i);
      Run2Snoc(policy, Map(See, packets[..i]), See(packets[i]));
      results := ProcessOne(p, packets[i], results);
    }
    assert packets[..|packets|] == packets;
  }

  // ---------------------------------------------------------------- the application counter

  /** `result["flow"].app_type` of every result, as the flows are now. */
  function AppsOf(results: seq<Result>): seq<AppType>
    reads set r | r in results :: r.flow
  {
    seq(|results|, i requires 0 <= i < |results| reads set r | r in results :: r.flow => results[i].flow.app)
  }

  /** `Counter(...)`. */
  method Count(apps: seq<AppType>) returns (counts: map<AppType, nat>)
    ensures counts == Report.Counter(app => multiset(apps)[app])
  {
    counts := map[];
    for i := 0 to |apps|
      invariant forall app :: app in counts <==> multiset(apps[..i])[app] > 0
      invariant forall app | app in counts :: counts[app] == multiset(apps[..i])[app]
    {
      assert apps[..i + 1] == apps[..i] + [apps[i]];
      counts := counts[apps[i] := (if apps[i] in counts then counts[apps[i]] else 0) + 1];
    }
    assert apps[..|apps|] == apps;
  }

  /** Every result of a run is filed. */
  predicate AllFiled(t: Table, results: seq<Verdict>) {
    forall i | 0 <= i < |results| :: results[i].seen.key in t
  }

  /** What a flow of the table is now, looked up for each result. */
  function AppsIn(t: Table, results: seq<Verdict>): seq<AppType>
    requires AllFiled(t, results)
  {
    seq(|results|, i requires 0 <= i < |results| => t[results[i].seen.key].app)
  }

  lemma {:induction false} AppsAreSelected(t: Table, results: seq<Verdict>, app: AppType)
    requires AllFiled(t, results)
    ensures multiset(AppsIn(t, results))[app] == |Filter(OfShard(Report.HasApp(t, app)), results)|
  {
    if results != [] {
      var init, last := results[..|results| - 1], results[|results| - 1];
      AppsAreSelected(t, init, app);
      assert AppsIn(t, results) == AppsIn(t, init) + [t[last.seen.key].app];
    }
  }

  lemma LiveAppsAreFinal(results: seq<Result>, tracker: ConnectionTracker)
    requires tracker.Valid() && Aliases(results, tracker)
    ensures AllFiled(tracker.Contents(), Map(ValueOf, results))
    ensures AppsOf(results) == AppsIn(tracker.Contents(), Map(ValueOf, results))
  {
    forall i | 0 <= i < |results| ensures results[i].flow.app == tracker.Contents()[results[i].seen.key].app {
      assert Alias(results[i], tracker);
    }
  }

  /** The results of a run, each under what its flow finally is, are as many as the packets of those flows. */
  lemma FinalAppsAreCounts(policy: Policy, ss: seq<Sighting>, app: AppType)
    requires AllKeyed(ss) && AllFiled(Run2(policy, ss), Results2(policy, ss))
    ensures multiset(AppsIn(Run2(policy, ss), Results2(policy, ss)))[app] == Report.PacketsOfApp(Run2(policy, ss))(app)
  {
    AppsAreSelected(Run2(policy, ss), Results2(policy, ss), app);
    Report.ResultsOfSelected(policy, ss, Report.HasApp(Run2(policy, ss), app));
  }

  // ---------------------------------------------------------------- counting by worker

  lemma {:induction false} SumCountsUnion(t: Table, a: set<Key>, b: set<Key>)
    requires a <= t.Keys && b <= t.Keys && a !! b
    ensures Report.SumCounts(t, a + b) == Report.SumCounts(t, a) + Report.SumCounts(t, b)
    decreases |b|
  {
    if b == {} {
      assert a + b == a;
    } else {
      var k :| k in b;
      SumCountsUnion(t, a, b - {k});
      Report.SumCountsRemove(t, b, k);
      Report.SumCountsRemove(t, a + b, k);
      assert a + b - {k} == a + (b - {k});
    }
  }

  /** The flows of one application among those that `sel` selects. */
  function AppWithin(t: Table, app: AppType, sel: Key -> bool): Key -> bool {
    (key: Key) => key in t && t[key].app == app && sel(key)
  }

  ghost function CountWithin(t: Table, app: AppType, sel: Key -> bool): nat {
    Report.SumCounts(t, Report.Selected(t, AppWithin(t, app, sel)))
  }

  lemma CountOfPiece(t: Table, app: AppType, sel: Key -> bool)
    ensures Report.PacketsOfApp(Restrict(t, sel))(app) == CountWithin(t, app, sel)
  {
    var piece := Restrict(t, sel);
    var keys := Report.Selected(piece, Report.HasApp(piece, app));
    assert keys == Report.Selected(t, AppWithin(t, app, sel));
    Report.SumCountsAgree(piece, t, keys);
  }

  lemma WithinSplits(t: Table, app: AppType, balancer: FlowBalancer, n: nat)
    ensures Report.Splits(AppWithin(t, app, Report.BelowWorker(balancer, n + 1)),
                          AppWithin(t, app, Report.BelowWorker(balancer, n)), AppWithin(t, app, OnWorker(balancer, n)))
  {
    var more, low, here := Report.BelowWorker(balancer, n + 1), Report.BelowWorker(balancer, n), OnWorker(balancer, n);
    forall key ensures more(key) == (low(key) || here(key)) && !(low(key) && here(key)) {
      Report.BelowOrOn(balancer, n, key);
    }
  }

  lemma CountSplits(t: Table, app: AppType, balancer: FlowBalancer, n: nat)
    ensures CountWithin(t, app, Report.BelowWorker(balancer, n + 1)) ==
              CountWithin(t, app, Report.BelowWorker(balancer, n)) + CountWithin(t, app, OnWorker(balancer, n))
  {
    var more := AppWithin(t, app, Report.BelowWorker(balancer, n + 1));
    var low, here := AppWithin(t, app, Report.BelowWorker(balancer, n)), AppWithin(t, app, OnWorker(balancer, n));
    WithinSplits(t, app, balancer, n);
    Report.SelectedSplits(t, more, low, here);
    SumCountsUnion(t, Report.Selected(t, low), Report.Selected(t, here));
  }

  lemma CountOfNothing(t: Table, app: AppType, balancer: FlowBalancer)
    ensures CountWithin(t, app, Report.BelowWorker(balancer, 0)) == 0
  {
    assert Report.Selected(t, AppWithin(t, app, Report.BelowWorker(balancer, 0))) == {};
  }

  lemma CountOfAll(policy: Policy, balancer: FlowBalancer, ss: seq<Sighting>, app: AppType)
    requires AllKeyed(ss)
    ensures CountWithin(Run2(policy, ss), app, Report.BelowWorker(balancer, balancer.workerCount)) ==
              Report.PacketsOfApp(Run2(policy, ss))(app)
  {
    Report.WholeIsBelow(policy, balancer, ss);
    CountOfPiece(Run2(policy, ss), app, Report.BelowWorker(balancer, balancer.workerCount));
  }

  /** The live flows of these results, counted by application, are the packets of the flows that `sel` selects. */
  ghost predicate Counted(t: Table, apps: seq<AppType>, sel: Key -> bool) {
    forall app :: multiset(apps)[app] == CountWithin(t, app, sel)
  }

  /** What one worker contributes: its own packets through its own processor. */
  method ProcessShare(rules: RuleManager, balancer: FlowBalancer, packets: seq<Packet>, w: nat)
    returns (results: seq<Result>)
    requires AllParsed(packets)
    ensures Counted(Run2(rules.ToPolicy(), Kept(packets)), AppsOf(results), OnWorker(balancer, w))
  {
    var policy := rules.ToPolicy();
    var p := new DPIProcessor(rules);
    var share := Filter(RoutedTo(PipelineJob(policy, balancer, packets), w), packets);
    ghost var ss := Map(See, share);
    results := ProcessAll(p, share);
    LiveAppsAreFinal(results, p.tracker);
    ShareIsCounted(policy, balancer, packets, w, ss);
  }

  lemma ShareIsCounted(policy: Policy, balancer: FlowBalancer, packets: seq<Packet>, w: nat, ss: seq<Sighting>)
    requires AllParsed(packets) && ss == Map(See, Filter(RoutedTo(PipelineJob(policy, balancer, packets), w), packets))
    requires AllFiled(Run2(policy, ss), Results2(policy, ss))
    ensures Counted(Run2(policy, Kept(packets)), AppsIn(Run2(policy, ss), Results2(policy, ss)), OnWorker(balancer, w))
  {
    ShareIsShard(policy, balancer, packets, packets, w);
    Shard(policy, Kept(packets), OnWorker(balancer, w));
    KeptIsKeyed(packets);
    ShardIsKeyed(OnWorker(balancer, w), Kept(packets));
    forall app
      ensures multiset(AppsIn(Run2(policy, ss), Results2(policy, ss)))[app] ==
                CountWithin(Run2(policy, Kept(packets)), app, OnWorker(balancer, w))
    {
      FinalAppsAreCounts(policy, ss, app);
      CountOfPiece(Run2(policy, Kept(packets)), app, OnWorker(balancer, w));
    }
  }

  lemma AppsConcat(xs: seq<AppType>, ys: seq<AppType>, t: Table, balancer: FlowBalancer, n: nat)
    requires Counted(t, xs, Report.BelowWorker(balancer, n)) && Counted(t, ys, OnWorker(balancer, n))
    ensures Counted(t, xs + ys, Report.BelowWorker(balancer, n + 1))
  {
    forall app ensures multiset(xs + ys)[app] == CountWithin(t, app, Report.BelowWorker(balancer, n + 1)) {
      CountSplits(t, app, balancer, n);
    }
  }

  lemma AllAreCounted(policy: Policy, balancer: FlowBalancer, packets: seq<Packet>, apps: seq<AppType>)
    requires AllParsed(packets)
    requires Counted(Run2(policy, Kept(packets)), apps, Report.BelowWorker(balancer, balancer.workerCount))
    ensures Report.Counter(app => multiset(apps)[app])
         == Report.Counter(Report.PacketsOfApp(Run2(policy, Kept(packets))))
  {
    var f: AppType -> nat := app => multiset(apps)[app];
    KeptIsKeyed(packets);
    forall app: AppType ensures f(app) == Report.PacketsOfApp(Run2(policy, Kept(packets)))(app) {
      CountOfAll(policy, balancer, Kept(packets), app);
    }
    Report.SameCounter(f, Report.PacketsOfApp(Run2(policy, Kept(packets))));
  }

  lemma NothingIsCounted(t: Table, balancer: FlowBalancer)
    ensures Counted(t, [], Report.BelowWorker(balancer, 0))
  {
    forall app ensures multiset([])[app] == CountWithin(t, app, Report.BelowWorker(balancer, 0)) {
      CountOfNothing(t, app, balancer);
    }
  }

  /** The results of all workers, one worker after another, and the application counter over their live flows as they
      are after the last packet: each application has the packets of its flows, whatever those flows were called when
      the results were made. */
  method CountApplications(rules: RuleManager, balancer: FlowBalancer, packets: seq<Packet>)
    returns (counts: map<AppType, nat>)
    requires AllParsed(packets)
    ensures counts == Report.Counter(Report.PacketsOfApp(Run2(rules.ToPolicy(), Kept(packets))))
  {
    hide Run2, Counted, Kept;
    ghost var policy, whole := rules.ToPolicy(), Run2(rules.ToPolicy(), Kept(packets));
    var results: seq<Result> := [];
    NothingIsCounted(whole, balancer);
    assert AppsOf(results) == [];
    for w := 0 to balancer.workerCount
      invariant Counted(whole, AppsOf(results), Report.BelowWorker(balancer, w))
    {
      ghost var before := AppsOf(results);
      var more := ProcessShare(rules, balancer, packets, w);
      AppsConcat(before, AppsOf(more), whole, balancer, w);
      assert AppsOf(results + more) == before + AppsOf(more);
      results := results + more;
    }
    ghost var apps := AppsOf(results);
    counts := Count(AppsOf(results));
    AllAreCounted(policy, balancer, packets, apps);
  }
}
