/** Whole runs of the two drivers over a capture, flow by flow: closed forms of every verdict. */
module Runs {
  import opened Base
  import opened Rules
  import opened Tracker
  import opened Sightings
  import opened Processor

  // ---------------------------------------------------------------- runs over a capture

  /** The flow table after `DPIProcessor.process` has seen `ss`. */
  function Run2(policy: Policy, ss: seq<Sighting>): Table {
    if ss == [] then map[] else ProcessTable(policy, Run2(policy, ss[..|ss| - 1]), ss[|ss| - 1])
  }

  /** The results of that run. */
  function Results2(policy: Policy, ss: seq<Sighting>): seq<Verdict> {
    if ss == [] then []
    else
      Collect(Results2(policy, ss[..|ss| - 1]), Judge(policy, Run2(policy, ss[..|ss| - 1]), ss[|ss| - 1]))
  }

  /** `results.append(result)`, unless an exception came instead. */
  function Collect<T>(results: seq<T>, outcome: Option<T>): seq<T> {
    if outcome == None then results else results + [outcome.value]
  }

  /** One turn of the loop in `DPIEngine.process_packets`: packets without a five-tuple are passed over. */
  function Step1(policy: Policy, t: Table, s: Sighting): Table {
    if s.key == None then t else Track(policy, t, s.key, s.sni)
  }

  /** The flow table after that loop has seen `ss`, starting from `t`. */
  function Pass1(policy: Policy, t: Table, ss: seq<Sighting>): Table {
    if ss == [] then t else Step1(policy, Pass1(policy, t, ss[..|ss| - 1]), ss[|ss| - 1])
  }

  /** The flow table of a new engine after that loop has seen `ss`. */
  function Run1(policy: Policy, ss: seq<Sighting>): Table {
    Pass1(policy, map[], ss)
  }

  predicate AllSound(ss: seq<Sighting>) {
    forall i | 0 <= i < |ss| :: ss[i].Sound()
  }

  // ---------------------------------------------------------------- runs are made of independent flows

  function HasKey(key: Key): Sighting -> bool {
    (s: Sighting) => s.key == key
  }

  /** The packets of one flow, in order. */
  function FlowOf(key: Key, ss: seq<Sighting>): seq<Sighting> {
    Filter(HasKey(key), ss)
  }

  /** The flow that `process` makes of the packets of one flow. */
  function Flow2(policy: Policy, ss: seq<Sighting>): Option<FlowState> {
    if ss == [] then None else Some(ProcessFlow(policy, Flow2(policy, ss[..|ss| - 1]), ss[|ss| - 1]))
  }

  /** The flow that `get_or_create_flow` makes of the packets of one flow. */
  function Flow1(policy: Policy, ss: seq<Sighting>): Option<FlowState> {
    if ss == [] then None
    else Some(Touch(policy, Flow1(policy, ss[..|ss| - 1]), ss[|ss| - 1].key, ss[|ss| - 1].sni))
  }

  lemma FlowOfSnoc(key: Key, ss: seq<Sighting>)
    requires ss != []
    ensures FlowOf(key, ss) ==
              if ss[|ss| - 1].key == key then FlowOf(key, ss[..|ss| - 1]) + [ss[|ss| - 1]]
              else FlowOf(key, ss[..|ss| - 1])
  {
  }

  lemma Snoc<T>(s: seq<T>)
    requires s != []
    ensures s == s[..|s| - 1] + [s[|s| - 1]]
  {
  }

  lemma FlowSnoc(policy: Policy, flow: seq<Sighting>, s: Sighting)
    ensures Flow1(policy, flow + [s]) == Some(Touch(policy, Flow1(policy, flow), s.key, s.sni))
    ensures Flow2(policy, flow + [s]) == Some(ProcessFlow(policy, Flow2(policy, flow), s))
  {
    assert (flow + [s])[..|flow|] == flow;
  }

  /** One packet changes the entry of its own flow and no other. */
  lemma StepAt1(policy: Policy, t: Table, s: Sighting, key: Key)
    requires key.Some?
    ensures Lookup(Step1(policy, t, s), key) ==
              if s.key == key then Some(Touch(policy, Lookup(t, key), key, s.sni)) else Lookup(t, key)
  {
  }

  lemma StepAt2(policy: Policy, t: Table, s: Sighting, key: Key)
    ensures Lookup(ProcessTable(policy, t, s), key) ==
              if s.key == key then Some(ProcessFlow(policy, Lookup(t, key), s)) else Lookup(t, key)
  {
  }

  lemma RunStep(policy: Policy, ss: seq<Sighting>)
    requires ss != []
    ensures Run1(policy, ss) == Step1(policy, Run1(policy, ss[..|ss| - 1]), ss[|ss| - 1])
    ensures Run2(policy, ss) == ProcessTable(policy, Run2(policy, ss[..|ss| - 1]), ss[|ss| - 1])
  {
  }

  /** V2: a flow's entry depends on that flow's packets only. */
  lemma {:induction false} FlowIsLocal2(policy: Policy, ss: seq<Sighting>, key: Key)
    ensures Lookup(Run2(policy, ss), key) == Flow2(policy, FlowOf(key, ss))
  {
    if ss != [] {
      var init, last := ss[..|ss| - 1], ss[|ss| - 1];
      FlowIsLocal2(policy, init, key);
      FlowOfSnoc(key, ss);
      RunStep(policy, ss);
      StepAt2(policy, Run2(policy, init), last, key);
      FlowSnoc(policy, FlowOf(key, init), last);
    }
  }

  /** V1: likewise. */
  lemma {:induction false} FlowIsLocal1(policy: Policy, ss: seq<Sighting>, key: Key)
    requires key.Some?
    ensures Lookup(Run1(policy, ss), key) == Flow1(policy, FlowOf(key, ss))
  {
    if ss != [] {
      var init, last := ss[..|ss| - 1], ss[|ss| - 1];
      FlowIsLocal1(policy, init, key);
      FlowOfSnoc(key, ss);
      RunStep(policy, ss);
      StepAt1(policy, Run1(policy, init), last, key);
      FlowSnoc(policy, FlowOf(key, init), last);
    }
  }

  // ---------------------------------------------------------------- evidence

  /** All packets belong to the flow `key`. */
  predicate OneFlow(key: Key, ss: seq<Sighting>) {
    forall i | 0 <= i < |ss| :: ss[i].key == key
  }

  lemma {:induction false} FlowOfIsOneFlow(key: Key, ss: seq<Sighting>)
    ensures OneFlow(key, FlowOf(key, ss))
    ensures AllSound(ss) ==> AllSound(FlowOf(key, ss))
  {
    FilterMembers(HasKey(key), ss);
    forall i | 0 <= i < |FlowOf(key, ss)| ensures FlowOf(key, ss)[i].key == key && FlowOf(key, ss)[i] in ss {
      assert FlowOf(key, ss)[i] in FlowOf(key, ss);
    }
  }

  /** Some packet names a domain that the policy condemns. */
  ghost predicate SawCondemned(policy: Policy, ss: seq<Sighting>) {
    exists i :: 0 <= i < |ss| && ss[i].Domain().Some? && policy.Condemns(ss[i].Domain().value)
  }

  /** V2's evidence: source address, UNKNOWN as an application, or any domain seen so far. */
  ghost predicate Evidence2(policy: Policy, src: string, ss: seq<Sighting>) {
    policy.blocksIp(src) || policy.blocksApp(UNKNOWN) || SawCondemned(policy, ss)
  }

  function SniOf(s: Sighting): Option<string> {
    s.sni
  }

  function FirstSni(ss: seq<Sighting>): Option<string> {
    First(SniOf, ss)
  }

  /** V1's evidence: source address, UNKNOWN only if the first packet had no SNI, and the first SNI only. */
  ghost predicate Evidence1(policy: Policy, src: string, ss: seq<Sighting>)
    requires ss != []
  {
    || policy.blocksIp(src)
    || (ss[0].sni == None && policy.blocksApp(UNKNOWN))
    || (FirstSni(ss).Some? && policy.Condemns(FirstSni(ss).value))
  }

  /** The latest domain named, if any. */
  function LastDomain(ss: seq<Sighting>): Option<string> {
    if ss == [] then None
    else if ss[|ss| - 1].Domain().Some? then ss[|ss| - 1].Domain()
    else LastDomain(ss[..|ss| - 1])
  }

  /** The application of an optional domain. */
  function AppOf(policy: Policy, domain: Option<string>): AppType {
    if domain == None then UNKNOWN else policy.classify(domain.value)
  }

  lemma SawCondemnedSnoc(policy: Policy, init: seq<Sighting>, last: Sighting)
    ensures SawCondemned(policy, init + [last]) <==>
              SawCondemned(policy, init) || (last.Domain().Some? && policy.Condemns(last.Domain().value))
  {
    var ss := init + [last];
    if SawCondemned(policy, init) {
      var i :| 0 <= i < |init| && init[i].Domain().Some? && policy.Condemns(init[i].Domain().value);
      assert ss[i] == init[i];
    }
    assert ss[|init|] == last;
  }

  /** The last domain is one of the domains seen. */
  lemma {:induction false} LastDomainWasSeen(policy: Policy, ss: seq<Sighting>)
    requires AllSound(ss)
    ensures LastDomain(ss).Some? ==> LastDomain(ss).value != ""
    ensures LastDomain(ss).Some? && policy.Condemns(LastDomain(ss).value) ==> SawCondemned(policy, ss)
  {
    if ss != [] {
      var init, last := ss[..|ss| - 1], ss[|ss| - 1];
      LastDomainWasSeen(policy, init);
      assert last.Sound();
      Snoc(ss);
      SawCondemnedSnoc(policy, init, last);
    }
  }

  // ---------------------------------------------------------------- closed forms

  /** One turn of V2 on a flow that already is what its closed form says. */
  lemma Advance2(policy: Policy, f: FlowState, s: Sighting, condemned: bool)
    requires f.key == s.key && s.key.Some? && s.Sound()
    requires f.sni.Some? ==> f.sni.value != ""
    requires f.app == AppOf(policy, f.sni)
    requires f.sni.Some? && policy.Condemns(f.sni.value) ==> condemned
    requires f.blocked == (policy.blocksIp(s.key.value.srcIp) || policy.blocksApp(UNKNOWN) || condemned)
    ensures ProcessFlow(policy, Some(f), s) == FlowState(
              f.key,
              if s.Domain().Some? then policy.classify(s.Domain().value) else f.app,
              if s.Domain().Some? then s.Domain() else f.sni,
              f.blocked || (s.Domain().Some? && policy.Condemns(s.Domain().value)),
              f.packetCount + 1)
  {
  }

  lemma Begin2(policy: Policy, s: Sighting)
    requires s.key.Some? && s.Sound()
    ensures ProcessFlow(policy, None, s) == FlowState(
              s.key, AppOf(policy, s.Domain()), s.Domain(),
              policy.blocksIp(s.key.value.srcIp) || policy.blocksApp(UNKNOWN)
              || (s.Domain().Some? && policy.Condemns(s.Domain().value)),
              1)
  {
  }

  /** V2: the flow carries its latest domain, and is blocked exactly on the evidence of all its packets. */
  lemma {:induction false} ClosedForm2(policy: Policy, key: Key, ss: seq<Sighting>)
    requires key.Some? && ss != [] && OneFlow(key, ss) && AllSound(ss)
    ensures Flow2(policy, ss) == Some(FlowState(
              key, AppOf(policy, LastDomain(ss)), LastDomain(ss), Evidence2(policy, key.value.srcIp, ss), |ss|))
  {
    var init, last := ss[..|ss| - 1], ss[|ss| - 1];
    assert last.key == key && last.Sound();
    Snoc(ss);
    SawCondemnedSnoc(policy, init, last);
    if init == [] {
      Begin2(policy, last);
    } else {
      ClosedForm2(policy, key, init);
      LastDomainWasSeen(policy, init);
      Advance2(policy, Flow2(policy, init).value, last, SawCondemned(policy, init));
    }
  }

  lemma Advance1(policy: Policy, f: FlowState, s: Sighting)
    requires f.key == s.key && s.key.Some? && s.Sound()
    requires f.sni.Some? ==> f.sni.value != ""
    requires f.app == AppOf(policy, f.sni)
    requires policy.blocksIp(s.key.value.srcIp) ==> f.blocked
    requires f.sni.Some? && policy.Condemns(f.sni.value) ==> f.blocked
    requires f.sni == None && policy.blocksApp(UNKNOWN) ==> f.blocked
    ensures Touch(policy, Some(f), s.key, s.sni) == FlowState(
              f.key,
              if f.sni == None then AppOf(policy, s.sni) else f.app,
              if f.sni == None then s.sni else f.sni,
              f.blocked || (f.sni == None && s.sni.Some? && policy.Condemns(s.sni.value)),
              f.packetCount + 1)
  {
  }

  lemma Begin1(policy: Policy, s: Sighting)
    requires s.key.Some? && s.Sound()
    ensures Touch(policy, None, s.key, s.sni) == FlowState(
              s.key, AppOf(policy, s.sni), s.sni,
              policy.blocksIp(s.key.value.srcIp) || (s.sni == None && policy.blocksApp(UNKNOWN))
              || (s.sni.Some? && policy.Condemns(s.sni.value)),
              1)
  {
  }

  lemma FirstSniIsSound(ss: seq<Sighting>)
    requires AllSound(ss)
    ensures FirstSni(ss).Some? ==> FirstSni(ss).value != ""
    ensures ss != [] && FirstSni(ss) == None ==> ss[0].sni == None
  {
    if FirstSni(ss).Some? {
      FirstIsFirst(SniOf, ss, FirstSni(ss).value);
      var i: nat :| FirstAt(SniOf, ss, i, FirstSni(ss).value);
      assert ss[i].Sound();
    } else {
      FirstIsFirst(SniOf, ss, "");
    }
  }

  /** V1: the flow carries its first SNI, and is blocked exactly on that and its very first packet. */
  lemma {:induction false} ClosedForm1(policy: Policy, key: Key, ss: seq<Sighting>)
    requires key.Some? && ss != [] && OneFlow(key, ss) && AllSound(ss)
    ensures Flow1(policy, ss) == Some(FlowState(
              key, AppOf(policy, FirstSni(ss)), FirstSni(ss), Evidence1(policy, key.value.srcIp, ss), |ss|))
  {
    var init, last := ss[..|ss| - 1], ss[|ss| - 1];
    assert last.key == key && last.Sound();
    Snoc(ss);
    FirstSnoc(SniOf, init, last);
    if init == [] {
      Begin1(policy, last);
      assert FirstSni(init) == None;
    } else {
      ClosedForm1(policy, key, init);
      FirstSniIsSound(init);
      Advance1(policy, Flow1(policy, init).value, last);
    }
  }
}
