/** What the extractors see in one parsed packet. */
module Sightings {
  import opened Base
  import opened Tracker
  import ClientHello
  import HttpHost

  /** A packet with its flow key, its TLS name and, only when it has no TLS name, its HTTP name. */
  datatype Sighting = Sighting(packet: Packet, key: Key, sni: Option<string>, httpHost: Option<string>) {

    /** `sni or http_host`. */
    function Domain(): Option<string> {
      if Truthy(sni) then sni else httpHost
    }

    /** Names are never empty, and there is at most one. */
    predicate Sound() {
      && (sni.Some? ==> sni.value != "")
      && (httpHost.Some? ==> httpHost.value != "" && sni == None)
    }
  }

  function See(p: Packet): Sighting {
    var sni := ClientHello.Sni(Payload(p));
    Sighting(p, CreateFiveTuple(p), sni, if sni == None then HttpHost.Host(Payload(p)) else None)
  }

  lemma HostIsNotEmpty(payload: seq<byte>)
    ensures HttpHost.Host(payload).Some? ==> HttpHost.Host(payload).value != ""
  {
    var host := HttpHost.Host(payload);
    if host.Some? {
      HttpHost.ScanIsFirst(payload, host.value);
      var lines := HttpHost.Lines(payload);
      var i: nat :| i < |lines| && HttpHost.NamesHost(lines[i], host.value);
    }
  }

  /** Neither extractor ever answers with an empty name. */
  lemma SeeIsSound(p: Packet)
    ensures See(p).Sound()
  {
    HostIsNotEmpty(Payload(p));
  }

  /** The extractor calls of `process`: the HTTP Host is only looked for without an SNI. */
  method Inspect(packet: Packet) returns (s: Sighting)
    ensures s == See(packet)
  {
    var payload := Payload(packet);
    var sni := ClientHello.Extract(payload);
    var httpHost := None;
    if !Truthy(sni) {
      httpHost := HttpHost.Extract(payload);
    }
    s := Sighting(packet, CreateFiveTuple(packet), sni, httpHost);
  }
}
