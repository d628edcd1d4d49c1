/** Captures on which the drivers differ, under the rules that are configured by default. */
module Witnesses {
  import opened Base
  import opened Rules
  import opened Tracker
  import opened Sightings
  import opened Runs
  import opened Verdicts
  import Text
  import ClientHello
  import HttpHost
  import Subdomains
  import Engine

  function Defaults(): Policy {
    Configure(None, None, None).ToPolicy()
  }

  // ---------------------------------------------------------------- the offline filter against the engine

  /** A TCP packet without payload from a blocked address to port 0. */
  function ToPortZero(): Packet {
    Packet(60, Some("10.0.0.50"), Some("1.2.3.4"), Some("TCP"), Some(5000), Some(0), Some([]))
  }

  /** A frame that is not IP. */
  function NotIp(): Packet {
    Packet(42, None, None, None, None, None, None)
  }

  lemma SeeToPortZero()
    ensures See(ToPortZero()).key == Some(FiveTuple("10.0.0.50", "1.2.3.4", 5000, 0, "TCP"))
    ensures Parsed(ToPortZero())
  {
  }

  lemma DefaultAddresses(ip: string)
    ensures Defaults().blocksIp(ip) <==> ip == "10.0.0.50"
  {
    var rules := Configure(None, None, None);
    assert rules.blockedIps == {"10.0.0.50"};
    assert Defaults().blocksIp(ip) == rules.IsIpBlocked(ip);
  }

  /** `main` writes a packet of a blocked address that the engine drops, because it goes to port 0. */
  lemma FilterKeepsPortZero()
    ensures var ss := Engine.SeeAll([ToPortZero()]);
            Engine.Kept(Defaults(), ss, 0) && !Engine.Forwarded1(Defaults(), ss, 0)
  {
    var packets := [ToPortZero()];
    Engine.CapturesAreSound(packets);
    SeeToPortZero();
    DefaultAddresses("10.0.0.50");
    Engine.FilterAgainstEngine(Defaults(), Engine.SeeAll(packets), 0);
  }

  /** `main` writes a frame that is not IP, which the engine never forwards. */
  lemma FilterKeepsNotIp()
    ensures Parsed(NotIp())
    ensures var ss := Engine.SeeAll([NotIp()]);
            Engine.Kept(Defaults(), ss, 0) && !Engine.Forwarded1(Defaults(), ss, 0)
  {
    var packets := [NotIp()];
    Engine.CapturesAreSound(packets);
    assert See(NotIp()).key == None;
    Engine.FilterAgainstEngine(Defaults(), Engine.SeeAll(packets), 0);
  }

  // ---------------------------------------------------------------- V1 against V2

  /** A TCP packet whose payload is one HTTP header naming a host. */
  function WithHost(host: string): Packet {
    Packet(72, Some("1.2.3.4"), Some("5.6.7.8"), Some("TCP"), Some(5000), Some(80), Some(Text.Encode("Host: " + host)))
  }

  /** A host name as it stands in a header line. */
  predicate HeaderValue(host: string) {
    host != "" && !Text.IsSpace(host[0]) && !Text.IsSpace(host[|host| - 1]) && '\r' !in host
  }

  lemma HeaderNamesHost(host: string)
    requires HeaderValue(host)
    ensures HttpHost.LineHost("Host: " + host) == Some(host)
  {
    assert "Host: " + host == "Host:" + (" " + host);
    assert (" " + host)[1..] == host && Text.StripLeft(host) == host;
    assert Text.Strip(" " + host) == host;
    HttpHost.HeaderLine("Host:", " " + host);
  }

  lemma HeaderIsOneLine(host: string)
    requires HeaderValue(host)
    ensures HttpHost.FreeOfCrlf("Host: " + host)
  {
    var line := "Host: " + host;
    forall i | 0 <= i < |line| ensures line[i] != '\r' {
      if i >= 6 { assert line[i] == host[i - 6]; }
    }
  }

  lemma HeaderIsNoHello(host: string)
    ensures ClientHello.Sni(Text.Encode("Host: " + host)) == None
  {
    var line := "Host: " + host;
    assert line[0] == 'H' && Text.Encode(line) == Text.EncodeChar(line[0]) + Text.Encode(line[1..]);
    assert Text.EncodeChar('H') == [0x48];
  }

  lemma HostOfHeader(line: string, host: string)
    requires HttpHost.LineHost(line) == Some(host) && HttpHost.FreeOfCrlf(line)
    ensures HttpHost.Host(Text.Encode(line)) == Some(host)
  {
    HttpHost.LineIsHostLine(line, host);
    assert [] + [line] + [] == [line] && Text.Join([line], HttpHost.CRLF) == line;
    HttpHost.RoundTrip([], line, []);
  }

  lemma SeeHost(host: string)
    requires HeaderValue(host)
    ensures See(WithHost(host)).sni == None && See(WithHost(host)).httpHost == Some(host)
  {
    HeaderNamesHost(host);
    HeaderIsOneLine(host);
    HeaderIsNoHello(host);
    HostOfHeader("Host: " + host, host);
  }

  lemma OnlyPacket(ss: seq<Sighting>)
    requires |ss| == 1
    ensures SoFar(ss, 0) == ss
  {
    assert ss[..1] == ss;
    FlowOfSnoc(ss[0].key, ss);
  }

  /** A single packet that names a condemned host, but only by HTTP: V1 forwards it and V2 drops it. */
  lemma HostSplitsTheDrivers(policy: Policy, host: string)
    requires HeaderValue(host) && policy.Condemns(host)
    requires !policy.blocksIp("1.2.3.4") && !policy.blocksApp(UNKNOWN)
    ensures var ss := Engine.SeeAll([WithHost(host)]); !Dropped1(policy, ss, 0) && Dropped2(policy, ss, 0)
  {
    var ss := Engine.SeeAll([WithHost(host)]);
    Engine.CapturesAreSound([WithHost(host)]);
    SeeHost(host);
    OnlyPacket(ss);
    assert ss[0].Domain() == Some(host);
    assert SawCondemned(policy, ss);
    FirstIsFirst(Runs.SniOf, ss, "");
    assert Runs.SniOf(ss[0]) == None;
    WhereTheyDiffer(policy, ss, 0);
    V2IsStricter(policy, ss, 0);
  }

  lemma DefaultsOnApps()
    ensures !Defaults().blocksApp(UNKNOWN) && Defaults().blocksApp(FACEBOOK)
  {
  }

  lemma DefaultsOnNames(host: string)
    requires host != "" && Sends(DOMAIN_RULES, Normalize(host), FACEBOOK)
    ensures Defaults().Condemns(host)
  {
    ClassifyIsSends(Configure(None, None, None), host, FACEBOOK);
    DefaultsOnApps();
  }

  lemma TwoWordsAreHeaderValue(host: string)
    requires IsTwoWords(host)
    ensures HeaderValue(host)
  {
    var a, b :| TwoWords(host, a, b);
    Subdomains.TwoWordsAreTight(host, a, b);
  }

  lemma FacebookEntry(host: string)
    requires host == "facebook.com"
    ensures host == DOMAIN_RULES[1].0 && DOMAIN_RULES[1].1 == FACEBOOK
  {
  }

  /** With the default rules, the header `Host: facebook.com` in a packet without a TLS name. */
  lemma FacebookByHttp(host: string)
    requires host == "facebook.com"
    ensures var ss := Engine.SeeAll([WithHost(host)]); !Dropped1(Defaults(), ss, 0) && Dropped2(Defaults(), ss, 0)
  {
    FacebookEntry(host);
    FacebookSends(host, 1);
    DefaultAddresses("1.2.3.4");
    assert |"1.2.3.4"| != |"10.0.0.50"|;
    DefaultsOnApps();
    DefaultsOnNames(host);
    HostSplitsTheDrivers(Defaults(), host);
  }

  lemma FacebookSends(host: string, i: nat)
    requires i < |DOMAIN_RULES| && host == DOMAIN_RULES[i].0
    ensures HeaderValue(host) && host != "" && Sends(DOMAIN_RULES, Normalize(host), DOMAIN_RULES[i].1)
  {
    EntriesAreTwoWords(i);
    TwoWordsAreHeaderValue(host);
    EntriesHaveTwoLabels(i);
    EntrySends(i);
  }

  // ---------------------------------------------------------------- names by TLS

  /** A TCP packet whose payload is a built ClientHello. */
  function WithHello(hello: seq<byte>): Packet {
    Packet(600, Some("1.2.3.4"), Some("5.6.7.8"), Some("TCP"), Some(5000), Some(443), Some(hello))
  }

  lemma SeeHello(host: string)
    requires host != "" && |Text.Encode(host)| <= ClientHello.LONGEST_HOST
    ensures ClientHello.BuildClientHello(host).Some?
    ensures See(WithHello(ClientHello.BuildClientHello(host).value)).sni == Some(host)
  {
    ClientHello.RoundTrip(host);
  }

  /** A single packet with a built ClientHello: both drivers drop it exactly when the rules condemn its host. */
  lemma HelloDecidesBoth(policy: Policy, host: string)
    requires host != "" && |Text.Encode(host)| <= ClientHello.LONGEST_HOST
    requires !policy.blocksIp("1.2.3.4") && !policy.blocksApp(UNKNOWN)
    ensures ClientHello.BuildClientHello(host).Some?
    ensures var ss := Engine.SeeAll([WithHello(ClientHello.BuildClientHello(host).value)]);
            Dropped1(policy, ss, 0) == Dropped2(policy, ss, 0) == policy.Condemns(host)
  {
    SeeHello(host);
    var packets := [WithHello(ClientHello.BuildClientHello(host).value)];
    var ss := Engine.SeeAll(packets);
    Engine.CapturesAreSound(packets);
    HelloFlow(policy, ss, host);
  }

  lemma HelloFlow(policy: Policy, ss: seq<Sighting>, host: string)
    requires |ss| == 1 && AllSound(ss) && ss[0].sni == Some(host) && ss[0].key.Some?
    requires !policy.blocksIp(ss[0].key.value.srcIp) && !policy.blocksApp(UNKNOWN)
    ensures Dropped1(policy, ss, 0) == Dropped2(policy, ss, 0) == policy.Condemns(host)
  {
    OnlyPacket(ss);
    assert ss[0].Sound() && ss[0].Domain() == Some(host) && Runs.SniOf(ss[0]) == Some(host);
    FirstIsFirst(Runs.SniOf, ss, host);
    assert FirstAt(Runs.SniOf, ss, 0, host);
    Verdict1(policy, ss, 0);
    Verdict2(policy, ss, 0);
    if policy.Condemns(host) { assert SawCondemned(policy, ss); }
  }
}
