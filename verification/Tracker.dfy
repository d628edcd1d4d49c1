/** Parsed packets, flows and the flow table: `types`, `PacketParser`'s output and `ConnectionTracker`. */
module Tracker {
  import opened Base
  import opened Rules

  // ---------------------------------------------------------------- packets and keys

  /** What `PacketParser.parse` leaves in its dictionary; None is a missing key. */
  datatype Packet = Packet(
    length: nat,
    srcIp: Option<string>, dstIp: Option<string>, protocol: Option<string>,
    srcPort: Option<nat>, dstPort: Option<nat>, payload: Option<seq<byte>>)

  /** The parser sets the addresses and the protocol name together, and the ports and the payload together. */
  predicate Parsed(p: Packet) {
    && (p.srcIp.Some? <==> p.protocol.Some?) && (p.dstIp.Some? <==> p.protocol.Some?)
    && (p.protocol.Some? ==> p.protocol.value in {"ICMP", "TCP", "UDP", "UNKNOWN"})
    && (p.srcPort.Some? <==> p.payload.Some?) && (p.dstPort.Some? <==> p.payload.Some?)
  }

  datatype FiveTuple = FiveTuple(srcIp: string, dstIp: string, srcPort: nat, dstPort: nat, protocol: string)

  /** A flow table key; Python's None is a key like any other. */
  type Key = Option<FiveTuple>

  /** `create_five_tuple`. */
  function CreateFiveTuple(p: Packet): Key {
    if !Truthy(p.srcIp) || !Truthy(p.dstIp) || !Truthy(p.protocol) then None
    else Some(FiveTuple(p.srcIp.value, p.dstIp.value, p.srcPort.GetOr(0), p.dstPort.GetOr(0), p.protocol.value))
  }

  function Payload(p: Packet): seq<byte> {
    p.payload.GetOr([])
  }

  // ---------------------------------------------------------------- flow states

  datatype FlowState = FlowState(key: Key, app: AppType, sni: Option<string>, blocked: bool, packetCount: nat)

  type Table = map<Key, FlowState>

  function Lookup(t: Table, key: Key): Option<FlowState> {
    if key in t then Some(t[key]) else None
  }

  /** `Flow(five_tuple=key, sni=sni)`. */
  function NewFlow(key: Key, sni: Option<string>): FlowState {
    FlowState(key, UNKNOWN, sni, false, 0)
  }

  /** Some rule blocks this flow as it stands. */
  predicate RuledOut(policy: Policy, f: FlowState)
    requires f.key.Some?
  {
    || policy.blocksIp(f.key.value.srcIp)
    || policy.blocksApp(f.app)
    || (Truthy(f.sni) && policy.blocksDomain(f.sni.value))
  }

  /** `apply_blocking_rules`: blocking is never undone; without a five-tuple the rules cannot be read. */
  function ApplyRules(policy: Policy, f: FlowState): FlowState {
    if f.blocked || f.key == None then f else f.(blocked := RuledOut(policy, f))
  }

  /** `apply_blocking_rules` raises on an unblocked flow that has no five-tuple. */
  predicate Raises(f: FlowState) {
    !f.blocked && f.key == None
  }

  function Reclassified(policy: Policy, f: FlowState): FlowState {
    if Truthy(f.sni) then f.(app := policy.classify(f.sni.value)) else f
  }

  function Named(f: FlowState, sni: Option<string>): FlowState {
    if Truthy(sni) && f.sni == None then f.(sni := sni) else f
  }

  /** The effect of `get_or_create_flow` on the one flow it concerns. */
  function Touch(policy: Policy, prior: Option<FlowState>, key: Key, sni: Option<string>): FlowState {
    var f := prior.GetOr(NewFlow(key, sni));
    ApplyRules(policy, Reclassified(policy, Named(f.(packetCount := f.packetCount + 1), sni)))
  }

  /** `get_or_create_flow` on the whole table. */
  function Track(policy: Policy, t: Table, key: Key, sni: Option<string>): Table {
    t[key := Touch(policy, Lookup(t, key), key, sni)]
  }

  /** Every flow is filed under its own key. */
  predicate Filed(t: Table) {
    forall k | k in t :: t[k].key == k
  }

  /** `is_packet_blocked`. */
  predicate PacketBlocked(t: Table, p: Packet) {
    CreateFiveTuple(p) in t && t[CreateFiveTuple(p)].blocked
  }

  // ---------------------------------------------------------------- the mutable tracker

  class Flow {
    const key: Key
    var app: AppType
    var sni: Option<string>
    var blocked: bool
    var packetCount: nat

    constructor (key: Key, sni: Option<string>)
      ensures this.key == key && View() == NewFlow(key, sni)
    {
      this.key, this.app, this.sni, this.blocked, this.packetCount := key, UNKNOWN, sni, false, 0;
    }

    function View(): FlowState
      reads this
    {
      FlowState(key, app, sni, blocked, packetCount)
    }
  }

  class ConnectionTracker {
    const rules: RuleManager
    var flows: map<Key, Flow>

    constructor (rules: RuleManager)
      ensures this.rules == rules && flows == map[] && Valid() && Contents() == map[]
    {
      this.rules, this.flows := rules, map[];
    }

    /** Every flow object is filed under its own key, so no object stands under two keys. */
    ghost predicate Valid()
      reads this
    {
      forall k | k in flows :: flows[k].key == k
    }

    /** The flow table as values. */
    ghost function Contents(): (t: Table)
      reads this, flows.Values
    {
      map k | k in flows :: flows[k].View()
    }

    /** `apply_blocking_rules`; `raised` is its AttributeError. */
    method ApplyBlockingRules(flow: Flow) returns (raised: bool)
      modifies flow`blocked
      ensures flow.View() == ApplyRules(rules.ToPolicy(), old(flow.View()))
      ensures raised == Raises(old(flow.View()))
    {
      if flow.blocked { return false; }
      if flow.key == None { return true; }
      if rules.IsIpBlocked(flow.key.value.srcIp) {
        flow.blocked := true;
        return false;
      }
      if rules.IsAppBlocked(flow.app) {
        flow.blocked := true;
        return false;
      }
      var domainBlocked := rules.IsDomainBlocked(flow.sni);
      if domainBlocked {
        flow.blocked := true;
        return false;
      }
      return false;
    }

    /** The part of `get_or_create_flow` that updates the flow found or created. */
    method TouchFlow(flow: Flow, sni: Option<string>) returns (raised: bool)
      modifies flow
      ensures flow.View() == Touch(rules.ToPolicy(), Some(old(flow.View())), flow.key, sni)
      ensures raised == Raises(flow.View())
    {
      flow.packetCount := flow.packetCount + 1;
      if Truthy(sni) && flow.sni == None {
        flow.sni := sni;
      }
      if Truthy(flow.sni) {
        flow.app := rules.ClassifyDomain(flow.sni);
      }
      raised := ApplyBlockingRules(flow);
    }

    /** The flow filed under `key` is the only one that changed: old flows keep their objects, others their values. */
    twostate predicate OnlyTouched(key: Key)
      reads this, flows.Values
    {
      && flows.Keys == old(flows.Keys) + {key}
      && (forall k | k in old(flows) :: flows[k] == old(flows)[k])
      && (key in old(flows) || fresh(flows[key]))
      && (forall k | k in old(flows) && k != key :: flows[k].View() == old(flows[k].View()))
    }

    /** Flow objects are old ones or new ones. */
    twostate predicate Grown()
      reads this
    {
      forall k | k in flows :: fresh(flows[k]) || flows[k] in old(flows.Values)
    }

    /** Then the table changed at one key. */
    twostate lemma OneFlowChanged(key: Key)
      requires OnlyTouched(key)
      ensures Contents() == old(Contents())[key := flows[key].View()] && Grown()
    {
      var now, want := Contents(), old(Contents())[key := flows[key].View()];
      assert now.Keys == want.Keys;
      forall k | k in now ensures now[k] == want[k] {
        if k != key { assert flows[k] == old(flows)[k]; }
      }
    }

    /** `get_or_create_flow`; None is the exception of the rules, raised after the table has changed. */
    method GetOrCreateFlow(key: Key, sni: Option<string>) returns (result: Option<Flow>)
      requires Valid()
      modifies this`flows, flows.Values
      ensures Valid() && OnlyTouched(key) && Grown()
      ensures flows[key].View() == Touch(rules.ToPolicy(), Lookup(old(Contents()), key), key, sni)
      ensures Contents() == Track(rules.ToPolicy(), old(Contents()), key, sni)
      ensures result == if Raises(flows[key].View()) then None else Some(flows[key])
    {
      ghost var prior := Lookup(Contents(), key);
      if key !in flows {
        var created := new Flow(key, sni);
        flows := flows[key := created];
      }
      var flow := flows[key];
      var raised := TouchFlow(flow, sni);
      assert flow.View() == Touch(rules.ToPolicy(), prior, key, sni);
      OneFlowChanged(key);
      result := if raised then None else Some(flow);
    }

    /** `is_packet_blocked`. */
    method IsPacketBlocked(p: Packet) returns (blocked: bool)
      requires Valid()
      ensures blocked == PacketBlocked(Contents(), p)
    {
      var key := CreateFiveTuple(p);
      blocked := key in flows && flows[key].blocked;
    }

    /** `get_flow_count`. */
    method GetFlowCount() returns (count: nat)
      requires Valid()
      ensures count == |Contents()|
    {
      count := |flows|;
      assert Contents().Keys == flows.Keys;
    }
  }
}
