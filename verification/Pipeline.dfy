/** `V2Pipeline`: the pool running `DPIProcessor.process` on a capture, and its report. */
module Pipeline {
  import opened Base
  import opened Rules
  import opened Tracker
  import opened Sightings
  import opened Processor
  import opened Runs
  import opened Verdicts
  import opened Balancer
  import opened Pool
  import opened PoolInvariant
  import PoolLiveness
  import Text

  // ---------------------------------------------------------------- the job

  /** The reader's guard: both addresses are there. */
  predicate Addressed(p: Packet) {
    Truthy(p.srcIp) && Truthy(p.dstIp)
  }

  /** The key `run` balances a packet on. */
  function BalanceKey(p: Packet): FlowKey {
    FlowKey(p.srcIp.GetOr(""), p.dstIp.GetOr(""), p.srcPort.GetOr(0), p.dstPort.GetOr(0), p.protocol.GetOr("UNKNOWN"))
  }

  function Route(balancer: FlowBalancer): Packet -> nat {
    (p: Packet) => balancer.GetWorker(BalanceKey(p))
  }

  /** The only exception of `process`: the rules ask a missing five-tuple for its source address. */
  const NO_FIVE_TUPLE := "'NoneType' object has no attribute 'src_ip'"

  function Answer(v: Option<Verdict>): Outcome<Verdict> {
    if v.Some? then Returned(v.value) else Raised(NO_FIVE_TUPLE)
  }

  /** `process` as the pool sees it. */
  function Step(policy: Policy): (Table, Packet) -> (Table, Outcome<Verdict>) {
    (t: Table, p: Packet) => (ProcessTable(policy, t, See(p)), Answer(Judge(policy, t, See(p))))
  }

  function PipelineJob(policy: Policy, balancer: FlowBalancer, packets: seq<Packet>): (job: Job<Packet, Table, Verdict>)
    ensures ValidJob(job)
  {
    Job(balancer.workerCount, packets, Addressed, Route(balancer), map[], Step(policy))
  }

  predicate AllParsed(packets: seq<Packet>) {
    forall i | 0 <= i < |packets| :: Parsed(packets[i])
  }

  /** What the sequential processor would be given: the sightings of the packets that are not skipped. */
  function Kept(packets: seq<Packet>): seq<Sighting> {
    Map(See, Filter(Addressed, packets))
  }

  // ---------------------------------------------------------------- flow affinity

  /** The key of a five-tuple's fields. */
  function KeyOf(t: FiveTuple): FlowKey {
    FlowKey(t.srcIp, t.dstIp, t.srcPort, t.dstPort, t.protocol)
  }

  /** The worker a five-tuple belongs to. */
  function WorkerOf(balancer: FlowBalancer, ft: FiveTuple): nat {
    balancer.GetWorker(KeyOf(ft))
  }

  function OnWorker(balancer: FlowBalancer, w: nat): Key -> bool {
    (key: Key) => key.Some? && WorkerOf(balancer, key.value) == w
  }

  /** The guard implies a five-tuple, and the packet goes to the worker its five-tuple belongs to. */
  lemma AffinityByKey(balancer: FlowBalancer, p: Packet)
    requires Parsed(p) && Addressed(p)
    ensures CreateFiveTuple(p).Some?
    ensures Route(balancer)(p) == WorkerOf(balancer, CreateFiveTuple(p).value)
  {
  }

  /** A submitted packet goes to the worker that the checksum of its own five-tuple's text leaves over. */
  lemma RouteIsResidue(balancer: FlowBalancer, p: Packet) returns (q: nat)
    requires Parsed(p) && Addressed(p)
    ensures CreateFiveTuple(p).Some?
    ensures var t := CreateFiveTuple(p).value;
            var text := KeyText(FlowKey(t.srcIp, t.dstIp, t.srcPort, t.dstPort, t.protocol));
            balancer.checksum(Text.Encode(text)) == q * balancer.workerCount + Route(balancer)(p)
  {
    q := WorkerIsResidue(balancer, KeyOf(CreateFiveTuple(p).value));
  }

  /** The two ends of one are the two ends of the other, the other way round. */
  predicate Mirrored(t: FiveTuple, u: FiveTuple) {
    && t.srcIp == u.dstIp && t.dstIp == u.srcIp
    && t.srcPort == u.dstPort && t.dstPort == u.srcPort && t.protocol == u.protocol
  }

  predicate NoBars(t: FiveTuple) {
    '|' !in t.srcIp && '|' !in t.dstIp && '|' !in t.protocol
  }

  /** With two workers or more, some checksum parts any two packets of different conversations. */
  lemma PacketsMayPart(workerCount: pos, p: Packet, q: Packet) returns (checksum: seq<byte> -> nat)
    requires workerCount >= 2 && Parsed(p) && Addressed(p) && Parsed(q) && Addressed(q)
    requires CreateFiveTuple(p).Some? && CreateFiveTuple(q).Some?
    requires NoBars(CreateFiveTuple(p).value) && NoBars(CreateFiveTuple(q).value)
    requires CreateFiveTuple(p) != CreateFiveTuple(q) && !Mirrored(CreateFiveTuple(p).value, CreateFiveTuple(q).value)
    ensures Route(FlowBalancer(workerCount, checksum))(p) != Route(FlowBalancer(workerCount, checksum))(q)
  {
    checksum := ConversationsMayPart(workerCount, KeyOf(CreateFiveTuple(p).value), KeyOf(CreateFiveTuple(q).value));
  }

  lemma SeeKey(p: Packet)
    ensures See(p).key == CreateFiveTuple(p) && See(p).packet == p
  {
  }

  lemma MapFilterSnoc(keep: Packet -> bool, packets: seq<Packet>)
    requires packets != []
    ensures var init, last := packets[..|packets| - 1], packets[|packets| - 1];
            Map(See, Filter(keep, packets)) ==
              if keep(last) then Map(See, Filter(keep, init)) + [See(last)] else Map(See, Filter(keep, init))
  {
  }

  /** Worker `w` sees exactly the kept packets of its own flows, in capture order. */
  lemma {:induction false} ShareIsShard(
    policy: Policy, balancer: FlowBalancer, packets: seq<Packet>, all: seq<Packet>, w: nat)
    requires AllParsed(packets)
    ensures Map(See, Filter(RoutedTo(PipelineJob(policy, balancer, all), w), packets))
         == Filter(InShard(OnWorker(balancer, w)), Kept(packets))
  {
    if packets != [] {
      var init, last := packets[..|packets| - 1], packets[|packets| - 1];
      ShareIsShard(policy, balancer, init, all, w);
      MapFilterSnoc(RoutedTo(PipelineJob(policy, balancer, all), w), packets);
      MapFilterSnoc(Addressed, packets);
      SeeKey(last);
      if Addressed(last) {
        AffinityByKey(balancer, last);
        FilterSnoc(InShard(OnWorker(balancer, w)), Kept(init), See(last));
      }
    }
  }

  lemma {:induction false} KeptIsKeyed(packets: seq<Packet>)
    requires AllParsed(packets)
    ensures AllKeyed(Kept(packets)) && AllSound(Kept(packets))
  {
    if packets != [] {
      var last := packets[|packets| - 1];
      KeptIsKeyed(packets[..|packets| - 1]);
      MapFilterSnoc(Addressed, packets);
      SeeKey(last);
      SeeIsSound(last);
    }
  }

  // ---------------------------------------------------------------- a worker's share is a V2 run

  lemma AbsorbIsProcess(
    policy: Policy, balancer: FlowBalancer, all: seq<Packet>, log: Log<Table, Verdict>, p: Packet)
    ensures var next := Absorb(PipelineJob(policy, balancer, all), log, p);
            && next.state == ProcessTable(policy, log.state, See(p))
            && next.results == Collect(log.results, Judge(policy, log.state, See(p)))
  {
  }

  lemma MapInit(items: seq<Packet>)
    requires items != []
    ensures Map(See, items) == Map(See, items[..|items| - 1]) + [See(items[|items| - 1])]
  {
    MapSnoc(See, items, |items| - 1);
    assert items[..|items| - 1 + 1] == items;
  }

  lemma SeqRunStep<T, S, R>(job: Job<T, S, R>, items: seq<T>)
    requires items != []
    ensures SeqRun(job, items) == Absorb(job, SeqRun(job, items[..|items| - 1]), items[|items| - 1])
  {
  }

  /** A processor alone in the pool does what V2's sequential run does. */
  lemma {:induction false} SeqRunIsRun2(policy: Policy, balancer: FlowBalancer, all: seq<Packet>, items: seq<Packet>)
    ensures var log := SeqRun(PipelineJob(policy, balancer, all), items);
            log.state == Run2(policy, Map(See, items)) && log.results == Results2(policy, Map(See, items))
  {
    if items != [] {
      var init, last := items[..|items| - 1], items[|items| - 1];
      SeqRunIsRun2(policy, balancer, all, init);
      SeqRunStep(PipelineJob(policy, balancer, all), items);
      AbsorbIsProcess(policy, balancer, all, SeqRun(PipelineJob(policy, balancer, all), init), last);
      MapInit(items);
      Run2Snoc(policy, Map(See, init), See(last));
    }
  }

  /** Worker `w` ends with exactly its flows' part of the sequential table and the sequential results, and no error. */
  lemma ShareOfRun(policy: Policy, balancer: FlowBalancer, packets: seq<Packet>, w: nat)
    requires AllParsed(packets)
    ensures var log := Share(PipelineJob(policy, balancer, packets), w);
            && log.state == Restrict(Run2(policy, Kept(packets)), OnWorker(balancer, w))
            && log.results == Filter(OfShard(OnWorker(balancer, w)), Results2(policy, Kept(packets)))
            && log.errors == 0 && log.lastError == None
  {
    var job := PipelineJob(policy, balancer, packets);
    var items := Submitted(job, |packets|, w);
    assert packets[..|packets|] == packets;
    ShareIsShard(policy, balancer, packets, packets, w);
    SeqRunIsRun2(policy, balancer, packets, items);
    Shard(policy, Kept(packets), OnWorker(balancer, w));
    KeptIsKeyed(packets);
    ShardIsKeyed(OnWorker(balancer, w), Kept(packets));
    OneResultEach(policy, Map(See, items));
  }

  lemma ShardIsKeyed(sel: Key -> bool, ss: seq<Sighting>)
    requires AllKeyed(ss)
    ensures AllKeyed(Filter(InShard(sel), ss))
  {
    FilterMembers(InShard(sel), ss);
    var part := Filter(InShard(sel), ss);
    forall i | 0 <= i < |part| ensures part[i].key.Some? {
      assert part[i] in part;
    }
  }

  // ---------------------------------------------------------------- every interleaving is race-free

  /** Whatever the schedule and the number of workers: when the run is over, worker `w` holds exactly the flows that
      hash to it, as the sequential processor would have left them, and its results are the sequential results for
      those flows, in capture order. */
  lemma RaceFree(policy: Policy, balancer: FlowBalancer, packets: seq<Packet>, schedule: seq<Actor>, w: nat)
    requires AllParsed(packets) && w < balancer.workerCount
    requires Run(PipelineJob(policy, balancer, packets), schedule).main.Done?
    ensures var log := Run(PipelineJob(policy, balancer, packets), schedule).workers[w].log;
            && log.state == Restrict(Run2(policy, Kept(packets)), OnWorker(balancer, w))
            && log.results == Filter(OfShard(OnWorker(balancer, w)), Results2(policy, Kept(packets)))
            && log.processed == |log.results| && log.errors == 0 && log.lastError == None
  {
    EveryScheduleAgrees(PipelineJob(policy, balancer, packets), schedule);
    ShareOfRun(policy, balancer, packets, w);
  }

  /** The workers' tables are disjoint and together make up the sequential table. */
  lemma TablesPartition(policy: Policy, balancer: FlowBalancer, packets: seq<Packet>, schedule: seq<Actor>, key: Key)
    requires AllParsed(packets)
    requires Run(PipelineJob(policy, balancer, packets), schedule).main.Done?
    ensures var workers := Run(PipelineJob(policy, balancer, packets), schedule).workers;
            var whole := Run2(policy, Kept(packets));
            && (key in whole <==> exists w: nat :: w < balancer.workerCount && key in workers[w].log.state)
            && (forall w: nat | w < balancer.workerCount && key in workers[w].log.state ::
                  key.Some? && w == WorkerOf(balancer, key.value) && workers[w].log.state[key] == whole[key])
  {
    var workers := Run(PipelineJob(policy, balancer, packets), schedule).workers;
    var whole := Run2(policy, Kept(packets));
    forall w: nat | w < balancer.workerCount
      ensures workers[w].log.state == Restrict(whole, OnWorker(balancer, w))
    {
      RaceFree(policy, balancer, packets, schedule, w);
    }
    if key in whole {
      KeptIsKeyed(packets);
      Run2IsFiled(policy, Kept(packets));
      assert Seen(Kept(packets), key);
      var w := WorkerOf(balancer, key.value);
      assert key in workers[w].log.state;
    }
  }

  /** Every fair run of the pipeline comes to its end. */
  lemma PipelineFinishes(policy: Policy, balancer: FlowBalancer, packets: seq<Packet>, rounds: seq<seq<Actor>>)
    requires |rounds| >= 6 * |packets| + 20 * balancer.workerCount + 42
    requires PoolLiveness.AllRounds(PipelineJob(policy, balancer, packets), rounds)
    ensures Run(PipelineJob(policy, balancer, packets), PoolLiveness.Flatten(rounds)).main.Done?
  {
    PoolLiveness.FairRunsFinish(PipelineJob(policy, balancer, packets), rounds);
  }
}
