/** The V2 per-worker step: `DPIProcessor.process`. */
module Processor {
  import opened Base
  import opened Rules
  import opened Tracker
  import opened Sightings

  datatype Decision = FORWARD | DROP

  function Decide(blocked: bool): Decision {
    if blocked then DROP else FORWARD
  }

  /** The effect of a named packet on its flow: the latest name always replaces the one before. */
  function Rename(policy: Policy, f: FlowState, domain: string): FlowState {
    ApplyRules(policy, f.(sni := Some(domain), app := policy.classify(domain)))
  }

  /** The effect of `process` on the one flow it concerns. */
  function ProcessFlow(policy: Policy, prior: Option<FlowState>, s: Sighting): FlowState {
    var f := Touch(policy, prior, s.key, None);
    if Raises(f) || !Truthy(s.Domain()) then f else Rename(policy, f, s.Domain().value)
  }

  /** `process` on the whole table. */
  function ProcessTable(policy: Policy, t: Table, s: Sighting): Table {
    t[s.key := ProcessFlow(policy, Lookup(t, s.key), s)]
  }

  /** A result dictionary; its flow is the live object filed under the sighting's key. */
  datatype Verdict = Verdict(seen: Sighting, decision: Decision)

  /** What `process` returns; None is an exception. */
  function Judge(policy: Policy, t: Table, s: Sighting): Option<Verdict> {
    var f := ProcessFlow(policy, Lookup(t, s.key), s);
    if Raises(f) then None else Some(Verdict(s, Decide(f.blocked)))
  }

  // ---------------------------------------------------------------- the mutable processor

  /** The live result of `process`. */
  datatype Result = Result(seen: Sighting, flow: Flow, decision: Decision)

  function Live(v: Option<Verdict>, flow: Flow): Option<Result> {
    if v == None then None else Some(Result(v.value.seen, flow, v.value.decision))
  }

  class DPIProcessor {
    const tracker: ConnectionTracker
    var processedPackets: nat

    constructor (rules: RuleManager)
      ensures fresh(tracker) && tracker.rules == rules && tracker.flows == map[] && tracker.Valid()
      ensures tracker.Contents() == map[] && processedPackets == 0
    {
      tracker := new ConnectionTracker(rules);
      processedPackets := 0;
    }

    /** The flow update of `process` for a packet that names a domain. */
    method RenameFlow(flow: Flow, domain: string)
      modifies flow
      ensures flow.View() == Rename(tracker.rules.ToPolicy(), old(flow.View()), domain)
    {
      flow.sni := Some(domain);
      flow.app := tracker.rules.ClassifyDomain(Some(domain));
      var raised := tracker.ApplyBlockingRules(flow);
    }

    /** `process`, on a packet already parsed; None is an exception. */
    method Process(packet: Packet) returns (result: Option<Result>)
      requires tracker.Valid()
      modifies this`processedPackets, tracker`flows, tracker.flows.Values
      ensures tracker.Valid() && tracker.OnlyTouched(See(packet).key)
      ensures tracker.Contents() == ProcessTable(tracker.rules.ToPolicy(), old(tracker.Contents()), See(packet))
      ensures var verdict := Judge(tracker.rules.ToPolicy(), old(tracker.Contents()), See(packet));
              result == Live(verdict, tracker.flows[See(packet).key])
      ensures result.Some? ==> (result.value.decision == DROP <==> result.value.flow.blocked)
      ensures processedPackets == old(processedPackets) + if result.Some? then 1 else 0
    {
      var seen := Inspect(packet);
      result := ProcessSeen(seen);
      tracker.OneFlowChanged(seen.key);
    }

    /** `process` with what the extractors answer for its packet. */
    method ProcessSeen(s: Sighting) returns (result: Option<Result>)
      requires tracker.Valid()
      modifies this`processedPackets, tracker`flows, tracker.flows.Values
      ensures tracker.Valid() && tracker.OnlyTouched(s.key)
      ensures var f := ProcessFlow(tracker.rules.ToPolicy(), Lookup(old(tracker.Contents()), s.key), s);
              && tracker.flows[s.key].View() == f
              && result == if Raises(f) then None else Some(Result(s, tracker.flows[s.key], Decide(f.blocked)))
      ensures result.Some? ==> (result.value.decision == DROP <==> result.value.flow.blocked)
      ensures processedPackets == old(processedPackets) + if result.Some? then 1 else 0
    {
      var found := tracker.GetOrCreateFlow(s.key, None);
      if found == None { return None; }
      var flow := found.value;
      if Truthy(s.Domain()) {
        RenameFlow(flow, s.Domain().value);
      }
      processedPackets := processedPackets + 1;
      result := Some(Result(s, flow, Decide(flow.blocked)));
    }
  }
}
