/** What the report of a finished run says of the capture itself: every number as a count of captured packets. */
module Totals {
  import opened Base
  import opened Rules
  import opened Tracker
  import opened Sightings
  import opened Processor
  import opened Runs
  import opened Verdicts
  import opened Engine
  import opened Balancer
  import opened Pool
  import opened Pipeline
  import opened Report
  import opened Configured

  // ---------------------------------------------------------------- which packets are let through

  /** The reader's guard lets through exactly the packets that have a five-tuple. */
  lemma GuardIsTuple(p: Packet)
    requires Parsed(p)
    ensures Addressed(p) <==> CreateFiveTuple(p).Some?
  {
  }

  /** The positions of packets without a five-tuple. */
  function NoTuple(packets: seq<Packet>): nat -> bool {
    (j: nat) => j < |packets| && CreateFiveTuple(packets[j]) == None
  }

  lemma {:induction false} TuplesAddUp(packets: seq<Packet>, n: nat)
    requires n <= |packets|
    ensures CountBelow(n, HasTuple(packets)) + CountBelow(n, NoTuple(packets)) == n
  {
    if n > 0 { TuplesAddUp(packets, n - 1); }
  }

  lemma KeptIsTupled(packets: seq<Packet>)
    requires AllParsed(packets)
    ensures |Pipeline.Kept(packets)| == CountBelow(|packets|, HasTuple(packets))
  {
    forall i: nat | i < |packets| ensures Addressed(packets[i]) == HasTuple(packets)(i) {
      GuardIsTuple(packets[i]);
    }
    FilterCount(Addressed, packets, HasTuple(packets));
  }

  /** Exactly the packets without a five-tuple are skipped, every other one has a result, and the flows are the distinct
      five-tuples of the capture. */
  lemma SkippedIsTupleless(policy: Policy, balancer: FlowBalancer, packets: seq<Packet>, schedule: seq<Actor>)
    requires AllParsed(packets) && Run(PipelineJob(policy, balancer, packets), schedule).main.Done?
    ensures var r := BuildReport(Run(PipelineJob(policy, balancer, packets), schedule));
            && r.skipped == CountBelow(|packets|, NoTuple(packets))
            && r.totalPackets == CountBelow(|packets|, HasTuple(packets))
            && r.totalFlows == |set p | p in packets && CreateFiveTuple(p).Some? :: CreateFiveTuple(p)|
  {
    ReportIsSequential(policy, balancer, packets, schedule);
    KeptIsKeyed(packets);
    OneResultEach(policy, Pipeline.Kept(packets));
    KeptIsTupled(packets);
    TuplesAddUp(packets, |packets|);
    FlowsAreTuples(policy, balancer, packets, schedule);
    TuplesOfGuard(packets);
  }

  lemma TuplesOfGuard(packets: seq<Packet>)
    requires AllParsed(packets)
    ensures (set p | p in packets && Addressed(p) :: CreateFiveTuple(p))
         == (set p | p in packets && CreateFiveTuple(p).Some? :: CreateFiveTuple(p))
  {
    forall p | p in packets ensures Addressed(p) <==> CreateFiveTuple(p).Some? {
      var i :| 0 <= i < |packets| && packets[i] == p;
      GuardIsTuple(p);
    }
  }

  // ---------------------------------------------------------------- which packets are dropped

  lemma KeptSnoc(packets: seq<Packet>)
    requires packets != []
    ensures var init, last := packets[..|packets| - 1], packets[|packets| - 1];
            && Pipeline.Kept(packets) ==
                 (if Addressed(last) then Pipeline.Kept(init) + [See(last)] else Pipeline.Kept(init))
            && SeeAll(packets) == SeeAll(init) + [See(last)]
  {
    MapFilterSnoc(Addressed, packets);
    MapInit(packets);
  }

  /** Packets without a five-tuple belong to no flow that is tracked. */
  lemma {:induction false} FlowOfKept(packets: seq<Packet>, key: Key)
    requires AllParsed(packets) && key.Some?
    ensures FlowOf(key, Pipeline.Kept(packets)) == FlowOf(key, SeeAll(packets))
  {
    if packets != [] {
      var init, last := packets[..|packets| - 1], packets[|packets| - 1];
      FlowOfKept(init, key);
      KeptSnoc(packets);
      GuardIsTuple(last);
      SeeKey(last);
      FilterSnoc(HasKey(key), SeeAll(init), See(last));
      FilterSnoc(HasKey(key), Pipeline.Kept(init), See(last));
    }
  }

  /** Packet `i` has a five-tuple, and V2 has evidence against its flow so far. */
  ghost function Blamed(policy: Policy, packets: seq<Packet>): nat -> bool {
    (i: nat) =>
      TupleAt(packets, i) && Evidence2(policy, CreateFiveTuple(packets[i]).value.srcIp, SoFar(SeeAll(packets), i))
  }

  /** Packet `i` has a five-tuple, and V2 has none. */
  ghost function Cleared(policy: Policy, packets: seq<Packet>): nat -> bool {
    (i: nat) => TupleAt(packets, i) && !Blamed(policy, packets)(i)
  }

  /** The last result of a run. */
  lemma LastOfRun(policy: Policy, ss: seq<Sighting>, s: Sighting) returns (v: Verdict)
    requires AllKeyed(ss + [s]) && AllSound(ss + [s])
    ensures Results2(policy, ss + [s]) == Results2(policy, ss) + [v]
    ensures v.decision == DROP <==> Evidence2(policy, s.key.value.srcIp, FlowOf(s.key, ss + [s]))
  {
    var all := ss + [s];
    assert all[|ss|] == s && all[..|ss| + 1] == all && all[..|ss|] == ss;
    assert AllKeyed(ss) by { assert forall i | 0 <= i < |ss| :: ss[i] == all[i]; }
    OneResultEach(policy, ss);
    OneResultEach(policy, all);
    ResultIsEvidence(policy, all, |ss|);
    v := Results2(policy, all)[|ss|];
    Run2Snoc(policy, ss, s);
  }

  lemma BlamedAtEnd(policy: Policy, packets: seq<Packet>)
    requires AllParsed(packets) && packets != [] && Addressed(packets[|packets| - 1])
    ensures var last := packets[|packets| - 1];
            && CreateFiveTuple(last).Some?
            && (Blamed(policy, packets)(|packets| - 1) <==>
                  Evidence2(policy, CreateFiveTuple(last).value.srcIp,
                            FlowOf(CreateFiveTuple(last), Pipeline.Kept(packets))))
  {
    var n := |packets| - 1;
    GuardIsTuple(packets[n]);
    FlowOfKept(packets, CreateFiveTuple(packets[n]));
    SeeKey(packets[n]);
    assert SeeAll(packets)[..n + 1] == SeeAll(packets);
  }

  /** The result of the last packet, when it has a five-tuple. */
  lemma LastVerdict(policy: Policy, packets: seq<Packet>) returns (v: Verdict)
    requires AllParsed(packets) && packets != [] && Addressed(packets[|packets| - 1])
    ensures Results2(policy, Pipeline.Kept(packets)) == Results2(policy, Pipeline.Kept(packets[..|packets| - 1])) + [v]
    ensures v.decision == DROP <==> Blamed(policy, packets)(|packets| - 1)
  {
    var init, last := packets[..|packets| - 1], packets[|packets| - 1];
    KeptSnoc(packets);
    KeptIsKeyed(packets);
    SeeKey(last);
    BlamedAtEnd(policy, packets);
    v := LastOfRun(policy, Pipeline.Kept(init), See(last));
  }

  lemma BlamedIsLocal(policy: Policy, packets: seq<Packet>, i: nat)
    requires i < |packets| - 1
    ensures Blamed(policy, packets)(i) == Blamed(policy, packets[..|packets| - 1])(i)
    ensures Cleared(policy, packets)(i) == Cleared(policy, packets[..|packets| - 1])(i)
  {
    var init := packets[..|packets| - 1];
    assert SeeAll(packets)[..i + 1] == SeeAll(init)[..i + 1];
  }

  lemma CountsAreLocal(policy: Policy, packets: seq<Packet>)
    requires packets != []
    ensures var init := packets[..|packets| - 1];
            && CountBelow(|init|, Blamed(policy, packets)) == CountBelow(|init|, Blamed(policy, init))
            && CountBelow(|init|, Cleared(policy, packets)) == CountBelow(|init|, Cleared(policy, init))
  {
    var init := packets[..|packets| - 1];
    forall i: nat | i < |init|
      ensures Blamed(policy, packets)(i) == Blamed(policy, init)(i)
      ensures Cleared(policy, packets)(i) == Cleared(policy, init)(i)
    {
      BlamedIsLocal(policy, packets, i);
    }
    CountAgrees(|init|, Blamed(policy, packets), Blamed(policy, init));
    CountAgrees(|init|, Cleared(policy, packets), Cleared(policy, init));
  }

  lemma {:induction false} DecisionsAreCounts(policy: Policy, packets: seq<Packet>)
    requires AllParsed(packets)
    ensures var results := Results2(policy, Pipeline.Kept(packets));
            && |Filter(Decided(DROP), results)| == CountBelow(|packets|, Blamed(policy, packets))
            && |Filter(Decided(FORWARD), results)| == CountBelow(|packets|, Cleared(policy, packets))
  {
    if packets != [] {
      var init, last := packets[..|packets| - 1], packets[|packets| - 1];
      var before := Results2(policy, Pipeline.Kept(init));
      DecisionsAreCounts(policy, init);
      CountsAreLocal(policy, packets);
      KeptSnoc(packets);
      GuardIsTuple(last);
      if Addressed(last) {
        var v := LastVerdict(policy, packets);
        FilterSnoc(Decided(DROP), before, v);
        FilterSnoc(Decided(FORWARD), before, v);
      }
    }
  }

  /** The packets reported as dropped are those with evidence against their flow so far, the forwarded ones the rest. */
  lemma DroppedIsBlamed(policy: Policy, balancer: FlowBalancer, packets: seq<Packet>, schedule: seq<Actor>)
    requires AllParsed(packets) && Run(PipelineJob(policy, balancer, packets), schedule).main.Done?
    ensures var r := BuildReport(Run(PipelineJob(policy, balancer, packets), schedule));
            && r.dropped == CountBelow(|packets|, Blamed(policy, packets))
            && r.forwarded == CountBelow(|packets|, Cleared(policy, packets))
  {
    ReportIsSequential(policy, balancer, packets, schedule);
    DecisionsAreCounts(policy, packets);
  }

  /** Packet `i` has a five-tuple, and the lists speak against it. */
  ghost function Listed(ips: set<string>, apps: set<AppType>, domains: set<string>, packets: seq<Packet>): nat -> bool {
    (i: nat) => TupleAt(packets, i) && Condemned2(ips, apps, domains, packets, i)
  }

  lemma BlamedMeans(policy: Policy, packets: seq<Packet>, i: nat, evidence: bool)
    requires i < |packets| && CreateFiveTuple(packets[i]).Some?
    requires evidence == Evidence2(policy, CreateFiveTuple(packets[i]).value.srcIp, SoFar(SeeAll(packets), i))
    ensures Blamed(policy, packets)(i) == evidence
  {
  }

  lemma ListedMeans(
    ips: set<string>, apps: set<AppType>, domains: set<string>, packets: seq<Packet>, i: nat, evidence: bool)
    requires i < |packets| && CreateFiveTuple(packets[i]).Some?
    requires evidence == Condemned2(ips, apps, domains, packets, i)
    ensures Listed(ips, apps, domains, packets)(i) == evidence
  {
  }

  lemma BlamedIsListedAt(rules: RuleManager, packets: seq<Packet>, i: nat)
    requires rules.domainRules == DOMAIN_RULES && i < |packets|
    ensures Blamed(rules.ToPolicy(), packets)(i) ==
              Listed(rules.blockedIps, rules.blockedApps, rules.blockedDomains, packets)(i)
  {
    if CreateFiveTuple(packets[i]).Some? {
      var evidence := Condemned2(rules.blockedIps, rules.blockedApps, rules.blockedDomains, packets, i);
      EvidenceOnSets2(rules, packets, i);
      BlamedMeans(rules.ToPolicy(), packets, i, evidence);
      ListedMeans(rules.blockedIps, rules.blockedApps, rules.blockedDomains, packets, i, evidence);
    }
  }

  lemma BlamedIsListed(rules: RuleManager, packets: seq<Packet>)
    requires rules.domainRules == DOMAIN_RULES
    ensures CountBelow(|packets|, Blamed(rules.ToPolicy(), packets)) ==
              CountBelow(|packets|, Listed(rules.blockedIps, rules.blockedApps, rules.blockedDomains, packets))
  {
    var blamed := Blamed(rules.ToPolicy(), packets);
    var listed := Listed(rules.blockedIps, rules.blockedApps, rules.blockedDomains, packets);
    forall i: nat | i < |packets| ensures blamed(i) == listed(i) {
      BlamedIsListedAt(rules, packets, i);
    }
    CountAgrees(|packets|, blamed, listed);
  }

  lemma DroppedByRules(rules: RuleManager, balancer: FlowBalancer, packets: seq<Packet>, schedule: seq<Actor>)
    requires rules.domainRules == DOMAIN_RULES && AllParsed(packets)
    requires Run(PipelineJob(rules.ToPolicy(), balancer, packets), schedule).main.Done?
    ensures BuildReport(Run(PipelineJob(rules.ToPolicy(), balancer, packets), schedule)).dropped ==
              CountBelow(|packets|, Listed(rules.blockedIps, rules.blockedApps, rules.blockedDomains, packets))
  {
    DroppedIsBlamed(rules.ToPolicy(), balancer, packets, schedule);
    BlamedIsListed(rules, packets);
  }

  /** The same for a configured pipeline, on the lists given or the default ones. */
  lemma DroppedIsListed(
    ips: Option<set<string>>, apps: Option<set<AppType>>, domains: Option<set<string>>,
    balancer: FlowBalancer, packets: seq<Packet>, schedule: seq<Actor>)
    requires AllParsed(packets)
    requires Run(PipelineJob(Configure(ips, apps, domains).ToPolicy(), balancer, packets), schedule).main.Done?
    ensures var job := PipelineJob(Configure(ips, apps, domains).ToPolicy(), balancer, packets);
            BuildReport(Run(job, schedule)).dropped ==
              CountBelow(|packets|, Listed(Or(ips, IPS), Or(apps, {FACEBOOK}), Or(domains, DOMAINS), packets))
  {
    ConfiguredSets(ips, apps, domains);
    DroppedByRules(Configure(ips, apps, domains), balancer, packets, schedule);
  }

  // ---------------------------------------------------------------- applications

  /** The packet has a five-tuple that `sel` selects. */
  function Selecting(sel: Key -> bool): Packet -> bool {
    (p: Packet) => CreateFiveTuple(p).Some? && sel(CreateFiveTuple(p))
  }

  lemma ShardSnoc(ss: seq<Sighting>, s: Sighting, sel: Key -> bool, key: Key)
    requires s.key == key
    ensures |Filter(InShard(sel), ss + [s])| == |Filter(InShard(sel), ss)| + if sel(key) then 1 else 0
  {
    FilterSnoc(InShard(sel), ss, s);
  }

  lemma {:induction false} SelectedAreKept(packets: seq<Packet>, sel: Key -> bool)
    requires AllParsed(packets)
    ensures |Filter(InShard(sel), Pipeline.Kept(packets))| == |Filter(Selecting(sel), packets)|
  {
    if packets != [] {
      var init, last := packets[..|packets| - 1], packets[|packets| - 1];
      SelectedAreKept(init, sel);
      KeptSnoc(packets);
      GuardIsTuple(last);
      SeeKey(last);
      ShardSnoc(Pipeline.Kept(init), See(last), sel, CreateFiveTuple(last));
    }
  }

  /** The application of packet `i`'s flow at the end of the capture: that of the latest name in the flow. */
  function FinalApp(policy: Policy, packets: seq<Packet>, i: nat): AppType
    requires i < |packets|
  {
    AppOf(policy, LastDomain(FlowOf(CreateFiveTuple(packets[i]), SeeAll(packets))))
  }

  ghost function EndsAs(policy: Policy, packets: seq<Packet>, app: AppType): nat -> bool {
    (i: nat) => TupleAt(packets, i) && FinalApp(policy, packets, i) == app
  }

  lemma FinalAppIsFiled(policy: Policy, packets: seq<Packet>, i: nat, app: AppType)
    requires AllParsed(packets) && TupleAt(packets, i)
    ensures HasApp(Run2(policy, Pipeline.Kept(packets)), app)(CreateFiveTuple(packets[i])) <==>
              FinalApp(policy, packets, i) == app
  {
    var key, kept := CreateFiveTuple(packets[i]), Pipeline.Kept(packets);
    var flow := FlowOf(key, kept);
    FlowOfKept(packets, key);
    FlowIsLocal2(policy, kept, key);
    KeptIsKeyed(packets);
    FlowOfIsOneFlow(key, kept);
    FilterMembers(HasKey(key), SeeAll(packets));
    assert SeeAll(packets)[i] in SeeAll(packets) && SeeAll(packets)[i].key == key;
    assert SeeAll(packets)[i] in flow;
    ClosedForm2(policy, key, flow);
  }

  lemma {:induction false} CountIsPositive(n: nat, test: nat -> bool)
    ensures CountBelow(n, test) > 0 <==> exists i: nat :: i < n && test(i)
  {
    if n > 0 { CountIsPositive(n - 1, test); }
  }

  /** The report's applications are those of some packet's flow at the end, each with the number of such packets. */
  lemma ApplicationsAreFinal(
    policy: Policy, balancer: FlowBalancer, packets: seq<Packet>, schedule: seq<Actor>, app: AppType)
    requires AllParsed(packets) && Run(PipelineJob(policy, balancer, packets), schedule).main.Done?
    ensures var apps := BuildReport(Run(PipelineJob(policy, balancer, packets), schedule)).applications;
            && (app in apps <==> exists i: nat :: i < |packets| && EndsAs(policy, packets, app)(i))
            && (app in apps ==> apps[app] == CountBelow(|packets|, EndsAs(policy, packets, app)))
  {
    var whole := Run2(policy, Pipeline.Kept(packets));
    ReportIsSequential(policy, balancer, packets, schedule);
    PacketsEndAs(policy, packets, app);
    CountIsPositive(|packets|, EndsAs(policy, packets, app));
  }

  lemma PacketsEndAs(policy: Policy, packets: seq<Packet>, app: AppType)
    requires AllParsed(packets)
    ensures PacketsOfApp(Run2(policy, Pipeline.Kept(packets)))(app) ==
              CountBelow(|packets|, EndsAs(policy, packets, app))
  {
    var kept := Pipeline.Kept(packets);
    var sel := HasApp(Run2(policy, kept), app);
    KeptIsKeyed(packets);
    ResultsOfSelected(policy, kept, sel);
    VerdictsAreOfShard(policy, kept, sel);
    SelectedAreKept(packets, sel);
    forall i: nat | i < |packets| ensures Selecting(sel)(packets[i]) == EndsAs(policy, packets, app)(i) {
      if TupleAt(packets, i) { FinalAppIsFiled(policy, packets, i, app); }
    }
    FilterCount(Selecting(sel), packets, EndsAs(policy, packets, app));
  }
}
