/** Every verdict for a configured engine, on captured packets and the sets of rules: no policy, no flow table. */
module Configured {
  import opened Base
  import opened Rules
  import opened Tracker
  import opened Sightings
  import opened Processor
  import opened Runs
  import opened Verdicts
  import opened Engine
  import ClientHello
  import HttpHost

  // ---------------------------------------------------------------- what a packet says

  function SniAt(packets: seq<Packet>, j: nat): Option<string>
    requires j < |packets|
  {
    ClientHello.Sni(Payload(packets[j]))
  }

  /** The TLS name, or else the HTTP name. */
  function NameAt(packets: seq<Packet>, j: nat): Option<string>
    requires j < |packets|
  {
    if SniAt(packets, j).Some? then SniAt(packets, j) else HttpHost.Host(Payload(packets[j]))
  }

  /** Packet `j` belongs to the flow of packet `i` and was captured no later. */
  predicate UpTo(packets: seq<Packet>, j: nat, i: nat)
    requires i < |packets|
  {
    j <= i && CreateFiveTuple(packets[j]) == CreateFiveTuple(packets[i])
  }

  // ---------------------------------------------------------------- what the sets say

  /** The name's application is blocked, or some blocked domain hits it. */
  ghost predicate Forbidden(apps: set<AppType>, domains: set<string>, name: string) {
    || FirstMatch(DOMAIN_RULES, Normalize(name)) in apps
    || exists rule | rule in domains :: RuleHits(Normalize(name), Normalize(rule))
  }

  ghost predicate SourceForbidden(ips: set<string>, p: Packet) {
    Truthy(p.srcIp) && p.srcIp.value in ips
  }

  /** V2's ground: the source address, UNKNOWN, or any name of the flow so far. */
  ghost predicate Condemned2(
    ips: set<string>, apps: set<AppType>, domains: set<string>, packets: seq<Packet>, i: nat)
    requires i < |packets|
  {
    || SourceForbidden(ips, packets[i])
    || UNKNOWN in apps
    || exists j: nat ::
         UpTo(packets, j, i) && NameAt(packets, j).Some? && Forbidden(apps, domains, NameAt(packets, j).value)
  }

  /** The first packet of the flow of packet `i`. */
  ghost predicate Opens(packets: seq<Packet>, j: nat, i: nat)
    requires i < |packets|
  {
    UpTo(packets, j, i) && forall k: nat | k < j :: !UpTo(packets, k, i)
  }

  /** The first packet of that flow with a TLS name. */
  ghost predicate NamesFirst(packets: seq<Packet>, j: nat, i: nat)
    requires i < |packets|
  {
    && UpTo(packets, j, i) && SniAt(packets, j).Some?
    && forall k: nat | k < j && UpTo(packets, k, i) :: SniAt(packets, k) == None
  }

  /** V1's ground: the source address, UNKNOWN when the first packet has no TLS name, or the first TLS name. */
  ghost predicate Condemned1(
    ips: set<string>, apps: set<AppType>, domains: set<string>, packets: seq<Packet>, i: nat)
    requires i < |packets|
  {
    || SourceForbidden(ips, packets[i])
    || (UNKNOWN in apps && exists j: nat :: Opens(packets, j, i) && SniAt(packets, j) == None)
    || exists j: nat :: NamesFirst(packets, j, i) && Forbidden(apps, domains, SniAt(packets, j).value)
  }

  // ---------------------------------------------------------------- from policies to sets

  /** What a configured manager answers. */
  lemma ConfiguredPolicy(rules: RuleManager, name: string, ip: string, app: AppType)
    requires rules.domainRules == DOMAIN_RULES && name != ""
    ensures rules.ToPolicy().blocksIp(ip) <==> ip != "" && ip in rules.blockedIps
    ensures rules.ToPolicy().blocksApp(app) <==> app in rules.blockedApps
    ensures rules.ToPolicy().Condemns(name) <==> Forbidden(rules.blockedApps, rules.blockedDomains, name)
  {
    var policy := rules.ToPolicy();
    assert policy.classify(name) == FirstMatch(DOMAIN_RULES, Normalize(name));
    assert policy.blocksApp(policy.classify(name)) == rules.IsAppBlocked(policy.classify(name));
    assert policy.blocksDomain(name) == rules.DomainBlocked(Some(name));
  }

  /** The defaults apply to each list that is not given, and only to that. */
  lemma ConfiguredSets(ips: Option<set<string>>, apps: Option<set<AppType>>, domains: Option<set<string>>)
    ensures var rules := Configure(ips, apps, domains);
            && rules.domainRules == DOMAIN_RULES
            && rules.blockedIps == (if ips.Some? then ips.value else {"10.0.0.50"})
            && rules.blockedApps == (if apps.Some? then apps.value else {FACEBOOK})
            && rules.blockedDomains == (if domains.Some? then domains.value
                                        else {"malicious.com", "phishing.com", "evil-site.net", "fake-login.com"})
  {
  }

  // ---------------------------------------------------------------- from flows to positions

  lemma SeeAt(packets: seq<Packet>, j: nat)
    requires j < |packets|
    ensures var s := SeeAll(packets)[j];
            && s.key == CreateFiveTuple(packets[j]) && s.sni == SniAt(packets, j) && s.Domain() == NameAt(packets, j)
  {
    SeeIsSound(packets[j]);
  }

  lemma MemberHasPosition(packets: seq<Packet>, i: nat, s: Sighting)
    requires i < |packets|
    ensures s in SoFar(SeeAll(packets), i) <==> exists j: nat :: UpTo(packets, j, i) && SeeAll(packets)[j] == s
  {
    var ss := SeeAll(packets);
    var key := ss[i].key;
    FilterMembers(HasKey(key), ss[..i + 1]);
    if s in ss[..i + 1] && s.key == key {
      var j: nat :| j < i + 1 && ss[..i + 1][j] == s;
      assert UpTo(packets, j, i) && ss[j] == s;
    }
    if j: nat :| UpTo(packets, j, i) && ss[j] == s {
      assert ss[..i + 1][j] == s;
    }
  }

  lemma SawByPosition(policy: Policy, packets: seq<Packet>, i: nat)
    requires i < |packets|
    ensures SawCondemned(policy, SoFar(SeeAll(packets), i)) <==>
              exists j: nat ::
                UpTo(packets, j, i) && NameAt(packets, j).Some? && policy.Condemns(NameAt(packets, j).value)
  {
    var ss, flow := SeeAll(packets), SoFar(SeeAll(packets), i);
    if SawCondemned(policy, flow) {
      var k: nat :| k < |flow| && flow[k].Domain().Some? && policy.Condemns(flow[k].Domain().value);
      MemberHasPosition(packets, i, flow[k]);
      var j: nat :| UpTo(packets, j, i) && ss[j] == flow[k];
      SeeAt(packets, j);
    }
    if j: nat :| UpTo(packets, j, i) && NameAt(packets, j).Some? && policy.Condemns(NameAt(packets, j).value) {
      SeeAt(packets, j);
      MemberHasPosition(packets, i, ss[j]);
      var k: nat :| k < |flow| && flow[k] == ss[j];
    }
  }

  /** `f` on the packets of one flow, and nothing on the others. */
  function OnFlow<U>(key: Key, f: Sighting -> Option<U>): Sighting -> Option<U> {
    (s: Sighting) => if s.key == key then f(s) else None
  }

  /** Packet `j` is the first of the flow of packet `i` that `f` answers, and this is the answer. */
  ghost predicate AnswersFirst<U>(packets: seq<Packet>, i: nat, f: Sighting -> Option<U>, answer: U, j: nat)
    requires i < |packets|
  {
    && UpTo(packets, j, i) && f(SeeAll(packets)[j]) == Some(answer)
    && forall k: nat | k < j && UpTo(packets, k, i) :: f(SeeAll(packets)[k]) == None
  }

  lemma FirstAtIsFirst<U>(packets: seq<Packet>, i: nat, f: Sighting -> Option<U>, answer: U, j: nat)
    requires i < |packets|
    ensures var ss := SeeAll(packets);
            FirstAt(OnFlow(ss[i].key, f), ss[..i + 1], j, answer) <==> AnswersFirst(packets, i, f, answer, j)
  {
    var ss := SeeAll(packets);
    var prefix, g := ss[..i + 1], OnFlow(ss[i].key, f);
    forall k: nat | k <= i ensures g(prefix[k]) == if UpTo(packets, k, i) then f(ss[k]) else None {
      assert ss[k].key == CreateFiveTuple(packets[k]);
    }
    if FirstAt(g, prefix, j, answer) {
      forall k: nat | k < j && UpTo(packets, k, i) ensures f(ss[k]) == None {
        assert g(prefix[k]) == None;
      }
    }
  }

  lemma FirstOfPrefix<U>(ss: seq<Sighting>, i: nat, f: Sighting -> Option<U>)
    requires i < |ss|
    ensures First(f, SoFar(ss, i)) == First(OnFlow(ss[i].key, f), ss[..i + 1])
  {
    hide First;
    FirstKept(f, HasKey(ss[i].key), OnFlow(ss[i].key, f), ss[..i + 1]);
  }

  lemma FirstOfFlow<U>(packets: seq<Packet>, i: nat, f: Sighting -> Option<U>, answer: U)
    requires i < |packets|
    ensures First(f, SoFar(SeeAll(packets), i)) == Some(answer) <==>
              exists j: nat :: AnswersFirst(packets, i, f, answer, j)
  {
    hide AnswersFirst, FirstAt, First, SoFar;
    var ss := SeeAll(packets);
    var g, prefix := OnFlow(ss[i].key, f), ss[..i + 1];
    FirstOfPrefix(ss, i, f);
    FirstIsFirst(g, prefix, answer);
    forall j: nat ensures FirstAt(g, prefix, j, answer) <==> AnswersFirst(packets, i, f, answer, j) {
      FirstAtIsFirst(packets, i, f, answer, j);
    }
    if First(f, SoFar(ss, i)) == Some(answer) {
      var j: nat :| FirstAt(g, prefix, j, answer);
      assert AnswersFirst(packets, i, f, answer, j);
    }
    if j: nat :| AnswersFirst(packets, i, f, answer, j) {
      assert FirstAt(g, prefix, j, answer);
    }
  }

  lemma FirstSniByPosition(packets: seq<Packet>, i: nat, name: string)
    requires i < |packets|
    ensures FirstSni(SoFar(SeeAll(packets), i)) == Some(name) <==>
              exists j: nat :: NamesFirst(packets, j, i) && SniAt(packets, j) == Some(name)
  {
    var ss := SeeAll(packets);
    FirstOfFlow(packets, i, Runs.SniOf, name);
    forall j: nat | j < |packets| ensures Runs.SniOf(ss[j]) == SniAt(packets, j) { SeeAt(packets, j); }
    if j: nat :| AnswersFirst(packets, i, Runs.SniOf, name, j) {
      assert NamesFirst(packets, j, i);
    }
    if j: nat :| NamesFirst(packets, j, i) && SniAt(packets, j) == Some(name) {
      assert AnswersFirst(packets, i, Runs.SniOf, name, j);
    }
  }

  /** The TLS name, as an answer that every packet gives. */
  function Spoken(s: Sighting): Option<Option<string>> {
    Some(s.sni)
  }

  lemma OpeningByPosition(packets: seq<Packet>, i: nat)
    requires i < |packets|
    ensures SoFar(SeeAll(packets), i) != []
    ensures SoFar(SeeAll(packets), i)[0].sni == None <==>
              exists j: nat :: Opens(packets, j, i) && SniAt(packets, j) == None
  {
    var ss := SeeAll(packets);
    CapturesAreSound(packets);
    SoFarIsFlow(ss, i);
    assert First(Spoken, SoFar(ss, i)) == Some(SoFar(ss, i)[0].sni);
    FirstOfFlow(packets, i, Spoken, None);
    forall j: nat | j < |packets| ensures Spoken(ss[j]) == Some(SniAt(packets, j)) { SeeAt(packets, j); }
    if j: nat :| AnswersFirst(packets, i, Spoken, None, j) {
      assert Opens(packets, j, i);
    }
    if j: nat :| Opens(packets, j, i) && SniAt(packets, j) == None {
      assert AnswersFirst(packets, i, Spoken, None, j);
    }
  }

  // ---------------------------------------------------------------- the evidence, on packets and sets

  lemma SourceByPosition(rules: RuleManager, packets: seq<Packet>, i: nat)
    requires rules.domainRules == DOMAIN_RULES && i < |packets| && CreateFiveTuple(packets[i]).Some?
    ensures rules.ToPolicy().blocksIp(CreateFiveTuple(packets[i]).value.srcIp) <==>
              SourceForbidden(rules.blockedIps, packets[i])
  {
    ConfiguredPolicy(rules, "-", packets[i].srcIp.value, UNKNOWN);
  }

  /** V2's evidence against packet `i`'s flow is what the sets say of its packets. */
  lemma EvidenceOnSets2(rules: RuleManager, packets: seq<Packet>, i: nat)
    requires rules.domainRules == DOMAIN_RULES && i < |packets| && CreateFiveTuple(packets[i]).Some?
    ensures Evidence2(rules.ToPolicy(), CreateFiveTuple(packets[i]).value.srcIp, SoFar(SeeAll(packets), i)) <==>
              Condemned2(rules.blockedIps, rules.blockedApps, rules.blockedDomains, packets, i)
  {
    SourceByPosition(rules, packets, i);
    ConfiguredPolicy(rules, "-", "", UNKNOWN);
    SawByPosition(rules.ToPolicy(), packets, i);
    forall j: nat | j < |packets| && NameAt(packets, j).Some?
      ensures rules.ToPolicy().Condemns(NameAt(packets, j).value) <==>
                Forbidden(rules.blockedApps, rules.blockedDomains, NameAt(packets, j).value)
    {
      SeeAt(packets, j);
      SeeIsSound(packets[j]);
      ConfiguredPolicy(rules, NameAt(packets, j).value, "", UNKNOWN);
    }
  }

  /** V1's evidence likewise. */
  lemma EvidenceOnSets1(rules: RuleManager, packets: seq<Packet>, i: nat)
    requires rules.domainRules == DOMAIN_RULES && i < |packets| && CreateFiveTuple(packets[i]).Some?
    ensures SoFar(SeeAll(packets), i) != []
    ensures Evidence1(rules.ToPolicy(), CreateFiveTuple(packets[i]).value.srcIp, SoFar(SeeAll(packets), i)) <==>
              Condemned1(rules.blockedIps, rules.blockedApps, rules.blockedDomains, packets, i)
  {
    SourceByPosition(rules, packets, i);
    ConfiguredPolicy(rules, "-", "", UNKNOWN);
    OpeningByPosition(packets, i);
    FirstNameOnSets(rules, packets, i);
  }

  lemma FirstNameOnSets(rules: RuleManager, packets: seq<Packet>, i: nat)
    requires rules.domainRules == DOMAIN_RULES && i < |packets|
    ensures var first := FirstSni(SoFar(SeeAll(packets), i));
            first.Some? && rules.ToPolicy().Condemns(first.value) <==>
              exists j: nat :: NamesFirst(packets, j, i)
                               && Forbidden(rules.blockedApps, rules.blockedDomains, SniAt(packets, j).value)
  {
    var first := FirstSni(SoFar(SeeAll(packets), i));
    if first.Some? {
      FirstSniByPosition(packets, i, first.value);
      var j: nat :| NamesFirst(packets, j, i) && SniAt(packets, j) == first;
      SeeIsSound(packets[j]);
      ConfiguredPolicy(rules, first.value, "", UNKNOWN);
    }
    if j: nat :| NamesFirst(packets, j, i)
                 && Forbidden(rules.blockedApps, rules.blockedDomains, SniAt(packets, j).value) {
      FirstSniByPosition(packets, i, SniAt(packets, j).value);
      SeeIsSound(packets[j]);
      ConfiguredPolicy(rules, SniAt(packets, j).value, "", UNKNOWN);
    }
  }

  // ---------------------------------------------------------------- the decisions

  /** The list given, or else the default one. */
  function Or<T>(given: Option<set<T>>, default: set<T>): set<T> {
    if given.Some? then given.value else default
  }

  const IPS := {"10.0.0.50"}
  const DOMAINS := {"malicious.com", "phishing.com", "evil-site.net", "fake-login.com"}

  /** V2's decision on packet `i`, for every configuration: DROP if and only if the lists given, or the default ones,
      speak against it. */
  lemma DecisionsOfV2(
    ips: Option<set<string>>, apps: Option<set<AppType>>, domains: Option<set<string>>, packets: seq<Packet>, i: nat)
    requires i < |packets| && forall j | 0 <= j < |packets| :: CreateFiveTuple(packets[j]).Some?
    ensures var results := Results2(Configure(ips, apps, domains).ToPolicy(), SeeAll(packets));
            && |results| == |packets| && results[i].seen.packet == packets[i]
            && (results[i].decision == DROP <==>
                  Condemned2(Or(ips, IPS), Or(apps, {FACEBOOK}), Or(domains, DOMAINS), packets, i))
  {
    var rules := Configure(ips, apps, domains);
    ConfiguredSets(ips, apps, domains);
    CapturesAreSound(packets);
    ResultIsEvidence(rules.ToPolicy(), SeeAll(packets), i);
    EvidenceOnSets2(rules, packets, i);
  }

  /** Packet `j` has a five-tuple. */
  predicate TupleAt(packets: seq<Packet>, j: nat) {
    j < |packets| && CreateFiveTuple(packets[j]).Some?
  }

  function HasTuple(packets: seq<Packet>): nat -> bool {
    (j: nat) => TupleAt(packets, j)
  }

  /** V1's decision on packet `i`, behind those on the earlier packets with a five-tuple. */
  lemma DecisionsOfV1(
    ips: Option<set<string>>, apps: Option<set<AppType>>, domains: Option<set<string>>, packets: seq<Packet>, i: nat)
    requires i < |packets| && CreateFiveTuple(packets[i]).Some?
    ensures var decisions := Decisions1(Configure(ips, apps, domains).ToPolicy(), map[], SeeAll(packets));
            var n := CountBelow(i, HasTuple(packets));
            && n < |decisions|
            && (decisions[n] == DROP <==>
                  Condemned1(Or(ips, IPS), Or(apps, {FACEBOOK}), Or(domains, DOMAINS), packets, i))
  {
    var rules, ss := Configure(ips, apps, domains), SeeAll(packets);
    ConfiguredSets(ips, apps, domains);
    CapturesAreSound(packets);
    DecisionIsEvidence(rules.ToPolicy(), ss, i);
    EvidenceOnSets1(rules, packets, i);
    FilterCount(Keyed, ss[..i], HasTuple(packets));
  }
}
