/** V1: `DPIEngine.process_packets`, the flow tracking of `PacketAnalyzer.analyze`, and the offline filter of `main`. */
module Engine {
  import opened Base
  import opened Rules
  import opened Tracker
  import opened Sightings
  import opened Processor
  import opened Runs
  import opened Verdicts
  import ClientHello

  // ---------------------------------------------------------------- the analyzer's pass

  /** The analyzer tracks the packets with a destination port and a five-tuple. */
  predicate Analyzed(s: Sighting) {
    s.packet.dstPort.GetOr(0) != 0 && s.key.Some?
  }

  function AnalyzeStep(policy: Policy, t: Table, s: Sighting): Table {
    if Analyzed(s) then Track(policy, t, s.key, s.sni) else t
  }

  /** The flow table after `analyze` has gone over `ss`, starting from `t`. */
  function Analyze(policy: Policy, t: Table, ss: seq<Sighting>): Table {
    if ss == [] then t else AnalyzeStep(policy, Analyze(policy, t, ss[..|ss| - 1]), ss[|ss| - 1])
  }

  /** The keys of the sightings are those of their packets. */
  predicate AllGenuine(ss: seq<Sighting>) {
    forall i | 0 <= i < |ss| :: ss[i].key == CreateFiveTuple(ss[i].packet)
  }

  // ---------------------------------------------------------------- the second pass changes nothing but counts

  /** Equal but for the packet count. */
  predicate Alike(f: FlowState, g: FlowState) {
    f.key == g.key && f.app == g.app && f.sni == g.sni && f.blocked == g.blocked
  }

  ghost predicate AlikeTables(t: Table, u: Table) {
    t.Keys == u.Keys && forall k | k in t :: Alike(t[k], u[k])
  }

  /** Touching `f` again with `sni` has nothing left to do. */
  predicate Settled(policy: Policy, f: FlowState, sni: Option<string>) {
    && f.key.Some?
    && (f.sni == None ==> sni == None)
    && (f.sni.Some? ==> f.sni.value != "" && f.app == policy.classify(f.sni.value))
    && (RuledOut(policy, f) ==> f.blocked)
  }

  lemma TouchSettled(policy: Policy, f: FlowState, g: FlowState, sni: Option<string>)
    requires Settled(policy, f, sni) && Alike(f, g)
    ensures Alike(f, Touch(policy, Some(g), f.key, sni))
  {
  }

  /** After the first pass, every flow is settled for every packet of the capture that belongs to it. */
  lemma FirstPassSettles(policy: Policy, ss: seq<Sighting>, i: nat)
    requires i < |ss| && ss[i].key.Some? && AllSound(ss)
    ensures ss[i].key in Run1(policy, ss) && Settled(policy, Run1(policy, ss)[ss[i].key], ss[i].sni)
  {
    var key := ss[i].key;
    var flow := FlowOf(key, ss);
    FilterMembers(HasKey(key), ss);
    assert ss[i] in flow;
    FlowOfIsOneFlow(key, ss);
    FlowIsLocal1(policy, ss, key);
    ClosedForm1(policy, key, flow);
    FirstSniIsSound(flow);
    FirstIsFirst(Runs.SniOf, flow, "");
    var j :| 0 <= j < |flow| && flow[j] == ss[i];
    assert FirstSni(flow) == None ==> Runs.SniOf(flow[j]) == None;
  }

  lemma {:induction false} SecondPassFrom(policy: Policy, t: Table, ss: seq<Sighting>)
    requires forall i | 0 <= i < |ss| && ss[i].key.Some? :: ss[i].key in t && Settled(policy, t[ss[i].key], ss[i].sni)
    requires Filed(t)
    ensures AlikeTables(t, Analyze(policy, t, ss))
  {
    if ss != [] {
      var init, last := ss[..|ss| - 1], ss[|ss| - 1];
      SecondPassFrom(policy, t, init);
      if Analyzed(last) {
        TouchSettled(policy, t[last.key], Analyze(policy, t, init)[last.key], last.sni);
      }
    }
  }

  lemma {:induction false} Run1IsFiled(policy: Policy, ss: seq<Sighting>)
    ensures Filed(Run1(policy, ss))
  {
    if ss != [] { Run1IsFiled(policy, ss[..|ss| - 1]); }
  }

  /** Analyzing a capture after V1's pass over it adds no flow and changes no flow's name, application or blocking. */
  lemma SecondPassIsFixpoint(policy: Policy, ss: seq<Sighting>)
    requires AllSound(ss)
    ensures AlikeTables(Run1(policy, ss), Analyze(policy, Run1(policy, ss), ss))
  {
    forall i | 0 <= i < |ss| && ss[i].key.Some?
      ensures ss[i].key in Run1(policy, ss) && Settled(policy, Run1(policy, ss)[ss[i].key], ss[i].sni)
    {
      FirstPassSettles(policy, ss, i);
    }
    Run1IsFiled(policy, ss);
    SecondPassFrom(policy, Run1(policy, ss), ss);
  }

  /** Every DROP of the first pass is confirmed by `is_packet_blocked` after the second. */
  lemma DropsAreConfirmed(policy: Policy, ss: seq<Sighting>, i: nat)
    requires i < |ss| && ss[i].key.Some? && AllSound(ss) && AllGenuine(ss) && Dropped1(policy, ss, i)
    ensures PacketBlocked(Analyze(policy, Run1(policy, ss), ss), ss[i].packet)
  {
    SecondPassIsFixpoint(policy, ss);
    EvidenceAtEnd(policy, ss, i);
    Verdict1(policy, ss, i);
    FinalEvidence(policy, ss, i);
  }

  lemma EvidenceAtEnd(policy: Policy, ss: seq<Sighting>, i: nat)
    requires i < |ss| && ss[i].key.Some? && AllSound(ss)
    ensures SoFar(ss, i) != [] && FlowOf(ss[i].key, ss) != []
    ensures Evidence1(policy, ss[i].key.value.srcIp, SoFar(ss, i)) ==>
              Evidence1(policy, ss[i].key.value.srcIp, FlowOf(ss[i].key, ss))
  {
    SoFarIsFlow(ss, i);
    assert ss == ss[..i + 1] + ss[i + 1..];
    FilterConcat(HasKey(ss[i].key), ss[..i + 1], ss[i + 1..]);
    Evidence1Grows(policy, ss[i].key.value.srcIp, SoFar(ss, i), FlowOf(ss[i].key, ss[i + 1..]));
  }

  /** The final V1 entry of a flow is blocked exactly on the evidence of all its packets. */
  lemma FinalEvidence(policy: Policy, ss: seq<Sighting>, i: nat)
    requires i < |ss| && ss[i].key.Some? && AllSound(ss)
    ensures FlowOf(ss[i].key, ss) != []
    ensures Blocked(Run1(policy, ss), ss[i].key) <==>
              Evidence1(policy, ss[i].key.value.srcIp, FlowOf(ss[i].key, ss))
  {
    EvidenceAtEnd(policy, ss, i);
    FlowOfIsOneFlow(ss[i].key, ss);
    FlowIsLocal1(policy, ss, ss[i].key);
    ClosedForm1(policy, ss[i].key, FlowOf(ss[i].key, ss));
  }

  // ---------------------------------------------------------------- the offline filter

  /** `main` keeps packet `i`: its flow is not blocked once the whole capture has been analyzed. */
  predicate Kept(policy: Policy, ss: seq<Sighting>, i: nat)
    requires i < |ss|
  {
    !PacketBlocked(Analyze(policy, map[], ss), ss[i].packet)
  }

  /** The one-pass engine forwards packet `i`. */
  predicate Forwarded1(policy: Policy, ss: seq<Sighting>, i: nat)
    requires i < |ss|
  {
    ss[i].key.Some? && !Dropped1(policy, ss, i)
  }

  /** The analyzer alone builds V1's table, less the flows to port 0. */
  lemma {:induction false} AnalyzeFresh(policy: Policy, ss: seq<Sighting>, key: Key)
    requires AllGenuine(ss)
    ensures Lookup(Analyze(policy, map[], ss), key) ==
              if key.Some? && key.value.dstPort != 0 then Lookup(Run1(policy, ss), key) else None
  {
    if ss != [] {
      var init, last := ss[..|ss| - 1], ss[|ss| - 1];
      assert last.key == CreateFiveTuple(last.packet);
      AnalyzeFresh(policy, init, key);
      AnalyzeFresh(policy, init, last.key);
    }
  }

  /** The filter keeps or removes a tracked flow as a whole: on the evidence of all its packets. */
  lemma FilterIsAllOrNothing(policy: Policy, ss: seq<Sighting>, i: nat)
    requires i < |ss| && Analyzed(ss[i]) && AllSound(ss) && AllGenuine(ss)
    ensures FlowOf(ss[i].key, ss) != []
    ensures Kept(policy, ss, i) <==> !Evidence1(policy, ss[i].key.value.srcIp, FlowOf(ss[i].key, ss))
  {
    AnalyzeFresh(policy, ss, ss[i].key);
    FinalEvidence(policy, ss, i);
  }

  lemma FilterIgnoresPortZero(policy: Policy, ss: seq<Sighting>, i: nat)
    requires i < |ss| && AllGenuine(ss) && !Analyzed(ss[i])
    ensures Kept(policy, ss, i)
  {
    AnalyzeFresh(policy, ss, ss[i].key);
  }

  /** The filter lets through what the one-pass engine does not exactly for packets without a five-tuple, which the
      engine never forwards, and for packets to port 0 with evidence against their flow, which the analyzer does not
      track. */
  lemma FilterAgainstEngine(policy: Policy, ss: seq<Sighting>, i: nat)
    requires i < |ss| && AllSound(ss) && AllGenuine(ss)
    ensures SoFar(ss, i) != []
    ensures Kept(policy, ss, i) && !Forwarded1(policy, ss, i) <==>
              || ss[i].key == None
              || (ss[i].key.value.dstPort == 0 && Evidence1(policy, ss[i].key.value.srcIp, SoFar(ss, i)))
  {
    SoFarIsFlow(ss, i);
    if ss[i].key.Some? {
      Verdict1(policy, ss, i);
      EvidenceAtEnd(policy, ss, i);
    }
    if Analyzed(ss[i]) {
      FilterIsAllOrNothing(policy, ss, i);
    } else {
      FilterIgnoresPortZero(policy, ss, i);
    }
  }

  /** For every other packet: what the filter keeps, the engine forwards. */
  lemma FilterIsStricter(policy: Policy, ss: seq<Sighting>, i: nat)
    requires i < |ss| && AllSound(ss) && AllGenuine(ss) && Analyzed(ss[i])
    ensures Kept(policy, ss, i) ==> Forwarded1(policy, ss, i)
  {
    FilterAgainstEngine(policy, ss, i);
  }

  // ---------------------------------------------------------------- the mutable engine

  function SeeAll(packets: seq<Packet>): seq<Sighting> {
    Map(See, packets)
  }

  /** What the extractors see is sound and genuine, so the theorems above apply to every capture. */
  lemma CapturesAreSound(packets: seq<Packet>)
    ensures AllSound(SeeAll(packets)) && AllGenuine(SeeAll(packets))
  {
    forall i | 0 <= i < |packets| ensures See(packets[i]).Sound() {
      SeeIsSound(packets[i]);
    }
  }

  /** The decisions of the one-pass loop, for the packets that have a five-tuple. */
  function Decisions1(policy: Policy, t: Table, ss: seq<Sighting>): seq<Decision> {
    if ss == [] then []
    else
      var before := Decisions1(policy, t, ss[..|ss| - 1]);
      var last := ss[|ss| - 1];
      if last.key == None then before else before + [Decide(Blocked(Pass1(policy, t, ss), last.key))]
  }

  /** The packets the one-pass loop lets pass. */
  function Forwards1(policy: Policy, t: Table, ss: seq<Sighting>): seq<Packet> {
    if ss == [] then []
    else
      var before := Forwards1(policy, t, ss[..|ss| - 1]);
      var last := ss[|ss| - 1];
      if last.key == None || Blocked(Pass1(policy, t, ss), last.key) then before else before + [last.packet]
  }

  predicate Keyed(s: Sighting) {
    s.key.Some?
  }

  /** One decision for each packet with a five-tuple. */
  lemma {:induction false} OneDecisionEach(policy: Policy, t: Table, ss: seq<Sighting>)
    ensures |Decisions1(policy, t, ss)| == |Filter(Keyed, ss)|
  {
    if ss != [] { OneDecisionEach(policy, t, ss[..|ss| - 1]); }
  }

  /** A decision once made stays where it is. */
  lemma DecisionsGrow(policy: Policy, t: Table, ss: seq<Sighting>, n: nat)
    requires ss != [] && n < |Decisions1(policy, t, ss[..|ss| - 1])|
    ensures n < |Decisions1(policy, t, ss)| && Decisions1(policy, t, ss)[n] == Decisions1(policy, t, ss[..|ss| - 1])[n]
  {
  }

  lemma LastDecision(policy: Policy, ss: seq<Sighting>)
    requires ss != [] && Keyed(ss[|ss| - 1])
    ensures var n := |Filter(Keyed, ss[..|ss| - 1])|;
            && n < |Decisions1(policy, map[], ss)|
            && (Decisions1(policy, map[], ss)[n] == DROP <==> Dropped1(policy, ss, |ss| - 1))
  {
    OneDecisionEach(policy, map[], ss[..|ss| - 1]);
    assert ss[..|ss| - 1 + 1] == ss;
  }

  lemma SameVerdict(policy: Policy, ss: seq<Sighting>, i: nat)
    requires i < |ss| - 1
    ensures Dropped1(policy, ss[..|ss| - 1], i) == Dropped1(policy, ss, i) && ss[..|ss| - 1][..i] == ss[..i]
  {
    assert ss[..|ss| - 1][..i + 1] == ss[..i + 1];
  }

  /** The decision on packet `i` stands behind those on the earlier packets with a five-tuple, and is its verdict. */
  lemma {:induction false} DecisionIsVerdict(policy: Policy, ss: seq<Sighting>, i: nat)
    requires i < |ss| && Keyed(ss[i])
    ensures var n := |Filter(Keyed, ss[..i])|;
            && n < |Decisions1(policy, map[], ss)|
            && (Decisions1(policy, map[], ss)[n] == DROP <==> Dropped1(policy, ss, i))
    decreases |ss|
  {
    if i < |ss| - 1 {
      DecisionIsVerdict(policy, ss[..|ss| - 1], i);
      SameVerdict(policy, ss, i);
      DecisionsGrow(policy, map[], ss, |Filter(Keyed, ss[..i])|);
    } else {
      LastDecision(policy, ss);
    }
  }

  /** And it is DROP exactly on V1's evidence of the packet's flow so far. */
  lemma DecisionIsEvidence(policy: Policy, ss: seq<Sighting>, i: nat)
    requires i < |ss| && Keyed(ss[i]) && AllSound(ss)
    ensures SoFar(ss, i) != []
    ensures var n := |Filter(Keyed, ss[..i])|;
            && n < |Decisions1(policy, map[], ss)|
            && (Decisions1(policy, map[], ss)[n] == DROP <==> Evidence1(policy, ss[i].key.value.srcIp, SoFar(ss, i)))
  {
    DecisionIsVerdict(policy, ss, i);
    Verdict1(policy, ss, i);
  }

  /** Packet `i` has a five-tuple and V1 has nothing against its flow so far. */
  ghost function Unblamed1(policy: Policy, ss: seq<Sighting>): nat -> bool {
    (i: nat) =>
      i < |ss| && Keyed(ss[i]) && SoFar(ss, i) != [] && !Evidence1(policy, ss[i].key.value.srcIp, SoFar(ss, i))
  }

  function PacketsOf(ss: seq<Sighting>): seq<Packet> {
    Map((s: Sighting) => s.packet, ss)
  }

  lemma ForwardStep(policy: Policy, ss: seq<Sighting>, n: nat)
    requires n < |ss| && AllSound(ss)
    ensures Forwards1(policy, map[], ss[..n + 1]) ==
              Forwards1(policy, map[], ss[..n]) + if Unblamed1(policy, ss)(n) then [ss[n].packet] else []
  {
    assert ss[..n + 1][..n] == ss[..n];
    if Keyed(ss[n]) {
      Verdict1(policy, ss, n);
    }
  }

  lemma {:induction false} ForwardsUpTo(policy: Policy, ss: seq<Sighting>, n: nat)
    requires n <= |ss| && AllSound(ss)
    ensures Forwards1(policy, map[], ss[..n]) == PickBelow(PacketsOf(ss), n, Unblamed1(policy, ss))
  {
    if n > 0 {
      ForwardsUpTo(policy, ss, n - 1);
      ForwardStep(policy, ss, n - 1);
    }
  }

  /** The engine lets pass exactly the packets with a five-tuple that V1 has no evidence against, in order. */
  lemma ForwardsAreUnblamed(policy: Policy, ss: seq<Sighting>)
    requires AllSound(ss)
    ensures Forwards1(policy, map[], ss) == PickBelow(PacketsOf(ss), |ss|, Unblamed1(policy, ss))
  {
    ForwardsUpTo(policy, ss, |ss|);
    assert ss[..|ss|] == ss;
  }

  /** The flows of one application. */
  function FlowsOfApp(t: Table, app: AppType): set<Key> {
    set k | k in t && t[k].app == app
  }

  /** The number of flows of each application that has any. */
  ghost predicate CountsApplications(counts: map<AppType, nat>, t: Table) {
    forall app :: if app in counts then counts[app] == |FlowsOfApp(t, app)| > 0 else FlowsOfApp(t, app) == {}
  }

  lemma CountOneMore(counts: map<AppType, nat>, t: Table, key: Key, f: FlowState)
    requires CountsApplications(counts, t) && key !in t
    ensures CountsApplications(
              counts[f.app := (if f.app in counts then counts[f.app] else 0) + 1], t[key := f])
  {
    var more := t[key := f];
    assert FlowsOfApp(more, f.app) == FlowsOfApp(t, f.app) + {key};
    forall app | app != f.app ensures FlowsOfApp(more, app) == FlowsOfApp(t, app) {
    }
  }

  /** `protocol_count`. */
  datatype ProtocolCount = ProtocolCount(tcp: nat, udp: nat, icmp: nat)

  function Speaks(protocol: string): Packet -> bool {
    (p: Packet) => p.protocol == Some(protocol)
  }

  /** `start` and the packets of each protocol. */
  function Tally(start: ProtocolCount, packets: seq<Packet>): ProtocolCount {
    ProtocolCount(
      start.tcp + |Filter(Speaks("TCP"), packets)|,
      start.udp + |Filter(Speaks("UDP"), packets)|,
      start.icmp + |Filter(Speaks("ICMP"), packets)|)
  }

  lemma TallySnoc(start: ProtocolCount, packets: seq<Packet>, p: Packet)
    ensures Tally(start, packets + [p]) == Tally(Tally(start, packets), [p])
  {
    FilterConcat(Speaks("TCP"), packets, [p]);
    FilterConcat(Speaks("UDP"), packets, [p]);
    FilterConcat(Speaks("ICMP"), packets, [p]);
  }

  /** The packet at this position is of this protocol. */
  function SpeaksAt(packets: seq<Packet>, protocol: string): nat -> bool {
    (i: nat) => i < |packets| && packets[i].protocol.Some? && packets[i].protocol.value == protocol
  }

  /** Each number is that of the packets of its own protocol. */
  lemma TallyCounts(start: ProtocolCount, packets: seq<Packet>)
    ensures Tally(start, packets).tcp == start.tcp + CountBelow(|packets|, SpeaksAt(packets, "TCP"))
    ensures Tally(start, packets).udp == start.udp + CountBelow(|packets|, SpeaksAt(packets, "UDP"))
    ensures Tally(start, packets).icmp == start.icmp + CountBelow(|packets|, SpeaksAt(packets, "ICMP"))
  {
    FilterCount(Speaks("TCP"), packets, SpeaksAt(packets, "TCP"));
    FilterCount(Speaks("UDP"), packets, SpeaksAt(packets, "UDP"));
    FilterCount(Speaks("ICMP"), packets, SpeaksAt(packets, "ICMP"));
  }

  class PacketAnalyzer {
    const tracker: ConnectionTracker
    var applicationCount: map<AppType, nat>
    var protocolCount: ProtocolCount

    constructor (tracker: ConnectionTracker)
      ensures this.tracker == tracker && applicationCount == map[] && protocolCount == ProtocolCount(0, 0, 0)
    {
      this.tracker, this.applicationCount, this.protocolCount := tracker, map[], ProtocolCount(0, 0, 0);
    }

    /** The protocol count of `analyze` for one packet. */
    method CountProtocol(packet: Packet)
      modifies this`protocolCount
      ensures protocolCount == Tally(old(protocolCount), [packet])
    {
      if packet.protocol == Some("TCP") {
        protocolCount := protocolCount.(tcp := protocolCount.tcp + 1);
      } else if packet.protocol == Some("UDP") {
        protocolCount := protocolCount.(udp := protocolCount.udp + 1);
      } else if packet.protocol == Some("ICMP") {
        protocolCount := protocolCount.(icmp := protocolCount.icmp + 1);
      }
    }

    /** The flow tracking of `analyze` for one packet. */
    method TrackOne(packet: Packet)
      requires tracker.Valid()
      modifies tracker`flows, tracker.flows.Values
      ensures tracker.Valid() && tracker.Grown()
      ensures tracker.Contents() == AnalyzeStep(tracker.rules.ToPolicy(), old(tracker.Contents()), See(packet))
    {
      if packet.dstPort.GetOr(0) != 0 {
        var sni := ClientHello.Extract(Payload(packet));
        var key := CreateFiveTuple(packet);
        if key.Some? {
          var flow := tracker.GetOrCreateFlow(key, sni);
        }
      }
    }

    /** One packet of the loop of `analyze`: flow tracking and protocol count. */
    method AnalyzeOne(packet: Packet)
      requires tracker.Valid()
      modifies this`protocolCount, tracker`flows, tracker.flows.Values
      ensures tracker.Valid() && tracker.Grown()
      ensures tracker.Contents() == AnalyzeStep(tracker.rules.ToPolicy(), old(tracker.Contents()), See(packet))
      ensures protocolCount == Tally(old(protocolCount), [packet])
    {
      TrackOne(packet);
      CountProtocol(packet);
    }

    /** The loop of `analyze`. */
    method TrackAll(packets: seq<Packet>)
      requires tracker.Valid()
      modifies this`protocolCount, tracker`flows, tracker.flows.Values
      ensures tracker.Valid() && tracker.Grown()
      ensures tracker.Contents() == Analyze(tracker.rules.ToPolicy(), old(tracker.Contents()), SeeAll(packets))
      ensures protocolCount == Tally(old(protocolCount), packets)
    {
      ghost var policy, start, counted := tracker.rules.ToPolicy(), tracker.Contents(), protocolCount;
      for n := 0 to |packets|
        invariant tracker.Valid() && tracker.Grown()
        invariant tracker.Contents() == Analyze(policy, start, SeeAll(packets[..n]))
        invariant protocolCount == Tally(counted, packets[..n])
      {
        OneMoreAnalyzed(policy, start, counted, packets, n);
        AnalyzeOne(packets[n]);
      }
      assert packets[..|packets|] == packets;
    }

    /** The application count of `analyze`, over the flow table as it stands. */
    method CountApplications()
      requires tracker.Valid()
      modifies this`applicationCount
      ensures CountsApplications(applicationCount, tracker.Contents())
    {
      applicationCount := CountFlows();
    }

    method CountFlows() returns (counts: map<AppType, nat>)
      requires tracker.Valid()
      ensures CountsApplications(counts, tracker.Contents())
    {
      counts := map[];
      var left := tracker.flows.Keys;
      ghost var all: Table, done: Table := tracker.Contents(), map[];
      while left != {}
        invariant left <= all.Keys
        invariant done == all - left
        invariant CountsApplications(counts, done)
        decreases |left|
      {
        var key :| key in left;
        left := left - {key};
        var app := tracker.flows[key].app;
        CountOneMore(counts, done, key, all[key]);
        done := done[key := all[key]];
        if app !in counts {
          counts := counts[app := 0];
        }
        counts := counts[app := counts[app] + 1];
      }
      assert done == all;
    }
  }

  lemma OneMoreAnalyzed(policy: Policy, t: Table, counted: ProtocolCount, packets: seq<Packet>, n: nat)
    requires n < |packets|
    ensures Analyze(policy, t, SeeAll(packets[..n + 1])) ==
              AnalyzeStep(policy, Analyze(policy, t, SeeAll(packets[..n])), See(packets[n]))
    ensures Tally(counted, packets[..n + 1]) == Tally(Tally(counted, packets[..n]), [packets[n]])
  {
    MapSnoc(See, packets, n);
    AnalyzeSnoc(policy, t, SeeAll(packets[..n]), See(packets[n]));
    TallySnoc(counted, packets[..n], packets[n]);
    assert packets[..n + 1] == packets[..n] + [packets[n]];
  }

  lemma AnalyzeSnoc(policy: Policy, t: Table, init: seq<Sighting>, last: Sighting)
    ensures Analyze(policy, t, init + [last]) == AnalyzeStep(policy, Analyze(policy, t, init), last)
  {
    assert (init + [last])[..|init|] == init;
  }

  class DPIEngine {
    const tracker: ConnectionTracker
    const analyzer: PacketAnalyzer

    constructor ()
      ensures tracker.Valid() && tracker.Contents() == map[] && tracker.rules == Configure(None, None, None)
      ensures analyzer.tracker == tracker && fresh(tracker) && fresh(analyzer)
    {
      var t := new ConnectionTracker(Configure(None, None, None));
      var a := new PacketAnalyzer(t);
      tracker, analyzer := t, a;
    }

    /** `process_packets`: one pass that decides, then the analyzer's pass over the same flows. */
    method ProcessPackets(packets: seq<Packet>)
      returns (parsed: seq<Packet>, statistics: ProtocolCount, decisions: seq<Decision>, forwarded: seq<Packet>)
      requires tracker.Valid() && analyzer.tracker == tracker
      modifies tracker`flows, tracker.flows.Values, analyzer`applicationCount, analyzer`protocolCount
      ensures tracker.Valid() && parsed == packets
      ensures statistics == analyzer.protocolCount == Tally(old(analyzer.protocolCount), packets)
      ensures var policy, ss := tracker.rules.ToPolicy(), SeeAll(packets);
              && decisions == Decisions1(policy, old(tracker.Contents()), ss)
              && forwarded == Forwards1(policy, old(tracker.Contents()), ss)
              && tracker.Contents() == Analyze(policy, Pass1(policy, old(tracker.Contents()), ss), ss)
      ensures CountsApplications(analyzer.applicationCount, tracker.Contents())
    {
      parsed, decisions, forwarded := DecideAll(packets);
      analyzer.TrackAll(parsed);
      analyzer.CountApplications();
      statistics := analyzer.protocolCount;
    }

    /** One turn of the first loop; None is `continue`. */
    method DecideOne(packet: Packet) returns (decision: Option<Decision>)
      requires tracker.Valid()
      modifies tracker`flows, tracker.flows.Values
      ensures tracker.Valid() && tracker.Grown()
      ensures tracker.Contents() == Step1(tracker.rules.ToPolicy(), old(tracker.Contents()), See(packet))
      ensures var key := See(packet).key;
              && decision == (if key == None then None else Some(Decide(Blocked(tracker.Contents(), key))))
              && (decision.Some? ==> (decision.value == DROP <==> Blocked(tracker.Contents(), key)))
    {
      var key := CreateFiveTuple(packet);
      if key == None { return None; }
      var sni := ClientHello.Extract(Payload(packet));
      var found := tracker.GetOrCreateFlow(key, sni);
      decision := Some(Decide(found.value.blocked));
    }

    /** One packet more through the first loop of `process_packets`, after those of `init`. */
    method DecideNext(
      packet: Packet, decisions: seq<Decision>, forwarded: seq<Packet>, ghost start: Table, ghost init: seq<Sighting>)
      returns (decisions': seq<Decision>, forwarded': seq<Packet>)
      requires tracker.Valid() && tracker.Contents() == Pass1(tracker.rules.ToPolicy(), start, init)
      modifies tracker`flows, tracker.flows.Values
      ensures tracker.Valid() && tracker.Grown()
      ensures tracker.Contents() == Pass1(tracker.rules.ToPolicy(), start, init + [See(packet)])
      ensures decisions == Decisions1(tracker.rules.ToPolicy(), start, init) ==>
                decisions' == Decisions1(tracker.rules.ToPolicy(), start, init + [See(packet)])
      ensures forwarded == Forwards1(tracker.rules.ToPolicy(), start, init) ==>
                forwarded' == Forwards1(tracker.rules.ToPolicy(), start, init + [See(packet)])
    {
      OneMoreDecision(tracker.rules.ToPolicy(), start, init, See(packet));
      decisions', forwarded' := decisions, forwarded;
      var decision := DecideOne(packet);
      if decision.Some? {
        decisions' := decisions' + [decision.value];
        if decision.value == FORWARD {
          forwarded' := forwarded' + [packet];
        }
      }
    }

    /** The first loop of `process_packets`. */
    method DecideAll(packets: seq<Packet>)
      returns (parsed: seq<Packet>, decisions: seq<Decision>, forwarded: seq<Packet>)
      requires tracker.Valid()
      modifies tracker`flows, tracker.flows.Values
      ensures tracker.Valid() && tracker.Grown() && parsed == packets
      ensures var policy, ss := tracker.rules.ToPolicy(), SeeAll(packets);
              && decisions == Decisions1(policy, old(tracker.Contents()), ss)
              && forwarded == Forwards1(policy, old(tracker.Contents()), ss)
              && tracker.Contents() == Pass1(policy, old(tracker.Contents()), ss)
    {
      parsed, decisions, forwarded := [], [], [];
      ghost var policy, start := tracker.rules.ToPolicy(), tracker.Contents();
      for n := 0 to |packets|
        invariant tracker.Valid() && tracker.Grown() && parsed == packets[..n]
        invariant tracker.Contents() == Pass1(policy, start, SeeAll(parsed))
        invariant decisions == Decisions1(policy, start, SeeAll(parsed))
        invariant forwarded == Forwards1(policy, start, SeeAll(parsed))
      {
        MapSnoc(See, packets, n);
        decisions, forwarded := DecideNext(packets[n], decisions, forwarded, start, SeeAll(parsed));
        parsed := parsed + [packets[n]];
      }
    }
  }

  lemma OneMoreDecision(policy: Policy, t: Table, init: seq<Sighting>, last: Sighting)
    ensures Pass1(policy, t, init + [last]) == Step1(policy, Pass1(policy, t, init), last)
    ensures var blocked := Blocked(Pass1(policy, t, init + [last]), last.key);
            && Decisions1(policy, t, init + [last])
               == Decisions1(policy, t, init) + (if last.key == None then [] else [Decide(blocked)])
            && Forwards1(policy, t, init + [last])
               == Forwards1(policy, t, init) + (if last.key == None || blocked then [] else [last.packet])
  {
    assert (init + [last])[..|init|] == init;
  }
}
