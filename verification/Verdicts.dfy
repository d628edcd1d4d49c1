/** What the closed forms say about the verdict on each packet of a capture, and how V1 and V2 compare. */
module Verdicts {
  import opened Base
  import opened Rules
  import opened Tracker
  import opened Sightings
  import opened Processor
  import opened Runs

  predicate Blocked(t: Table, key: Key) {
    key in t && t[key].blocked
  }

  /** V1's one-pass engine decides DROP on packet `i`. */
  predicate Dropped1(policy: Policy, ss: seq<Sighting>, i: nat)
    requires i < |ss|
  {
    Blocked(Run1(policy, ss[..i + 1]), ss[i].key)
  }

  /** V2's processor decides DROP on packet `i`. */
  predicate Dropped2(policy: Policy, ss: seq<Sighting>, i: nat)
    requires i < |ss|
  {
    Blocked(Run2(policy, ss[..i + 1]), ss[i].key)
  }

  /** The packets of packet `i`'s flow, up to and including itself. */
  function SoFar(ss: seq<Sighting>, i: nat): seq<Sighting>
    requires i < |ss|
  {
    FlowOf(ss[i].key, ss[..i + 1])
  }

  lemma SoFarIsFlow(ss: seq<Sighting>, i: nat)
    requires i < |ss| && AllSound(ss)
    ensures SoFar(ss, i) != [] && OneFlow(ss[i].key, SoFar(ss, i)) && AllSound(SoFar(ss, i))
  {
    FlowOfSnoc(ss[i].key, ss[..i + 1]);
    FlowOfIsOneFlow(ss[i].key, ss[..i + 1]);
  }

  /** V2 drops a packet exactly on the evidence of its flow so far. */
  lemma Verdict2(policy: Policy, ss: seq<Sighting>, i: nat)
    requires i < |ss| && ss[i].key.Some? && AllSound(ss)
    ensures Dropped2(policy, ss, i) <==> Evidence2(policy, ss[i].key.value.srcIp, SoFar(ss, i))
  {
    SoFarIsFlow(ss, i);
    FlowIsLocal2(policy, ss[..i + 1], ss[i].key);
    ClosedForm2(policy, ss[i].key, SoFar(ss, i));
  }

  /** V1 drops a packet exactly on the narrower evidence of its flow so far. */
  lemma Verdict1(policy: Policy, ss: seq<Sighting>, i: nat)
    requires i < |ss| && ss[i].key.Some? && AllSound(ss)
    ensures SoFar(ss, i) != []
    ensures Dropped1(policy, ss, i) <==> Evidence1(policy, ss[i].key.value.srcIp, SoFar(ss, i))
  {
    SoFarIsFlow(ss, i);
    FlowIsLocal1(policy, ss[..i + 1], ss[i].key);
    ClosedForm1(policy, ss[i].key, SoFar(ss, i));
  }

  // ---------------------------------------------------------------- evidence only grows

  lemma Evidence2Grows(policy: Policy, src: string, xs: seq<Sighting>, ys: seq<Sighting>)
    ensures Evidence2(policy, src, xs) ==> Evidence2(policy, src, xs + ys)
  {
    if SawCondemned(policy, xs) {
      var i :| 0 <= i < |xs| && xs[i].Domain().Some? && policy.Condemns(xs[i].Domain().value);
      assert (xs + ys)[i] == xs[i];
    }
  }

  lemma {:induction false} FirstSniStays(xs: seq<Sighting>, ys: seq<Sighting>)
    requires FirstSni(xs).Some?
    ensures FirstSni(xs + ys) == FirstSni(xs)
  {
    assert (xs + ys)[1..] == xs[1..] + ys;
    if xs[0].sni == None { FirstSniStays(xs[1..], ys); }
  }

  lemma Evidence1Grows(policy: Policy, src: string, xs: seq<Sighting>, ys: seq<Sighting>)
    requires xs != []
    ensures Evidence1(policy, src, xs) ==> Evidence1(policy, src, xs + ys)
  {
    if FirstSni(xs).Some? { FirstSniStays(xs, ys); }
  }

  lemma SoFarGrows(ss: seq<Sighting>, i: nat, j: nat)
    requires i <= j < |ss| && ss[i].key == ss[j].key
    ensures SoFar(ss, j) == SoFar(ss, i) + FlowOf(ss[i].key, ss[i + 1..j + 1])
  {
    assert ss[..j + 1] == ss[..i + 1] + ss[i + 1..j + 1];
    FilterConcat(HasKey(ss[i].key), ss[..i + 1], ss[i + 1..j + 1]);
  }

  /** In each flow, decisions are FORWARD up to a point and DROP from there on, in both drivers. */
  lemma DropsAreSticky(policy: Policy, ss: seq<Sighting>, i: nat, j: nat)
    requires i <= j < |ss| && ss[i].key == ss[j].key && ss[i].key.Some? && AllSound(ss)
    ensures Dropped1(policy, ss, i) ==> Dropped1(policy, ss, j)
    ensures Dropped2(policy, ss, i) ==> Dropped2(policy, ss, j)
  {
    SoFarGrows(ss, i, j);
    Verdict1(policy, ss, i);
    Verdict1(policy, ss, j);
    Verdict2(policy, ss, i);
    Verdict2(policy, ss, j);
    var more := FlowOf(ss[i].key, ss[i + 1..j + 1]);
    Evidence1Grows(policy, ss[i].key.value.srcIp, SoFar(ss, i), more);
    Evidence2Grows(policy, ss[i].key.value.srcIp, SoFar(ss, i), more);
  }

  // ---------------------------------------------------------------- V1 against V2

  lemma Evidence1IsEvidence2(policy: Policy, src: string, xs: seq<Sighting>)
    requires xs != [] && AllSound(xs)
    ensures Evidence1(policy, src, xs) ==> Evidence2(policy, src, xs)
  {
    if FirstSni(xs).Some? {
      FirstIsFirst(Runs.SniOf, xs, FirstSni(xs).value);
      var i: nat :| FirstAt(Runs.SniOf, xs, i, FirstSni(xs).value);
      assert xs[i].Sound() && xs[i].Domain() == FirstSni(xs);
    }
  }

  /** V2 is at least as strict as V1: what the one-pass engine drops, the processor drops. */
  lemma V2IsStricter(policy: Policy, ss: seq<Sighting>, i: nat)
    requires i < |ss| && ss[i].key.Some? && AllSound(ss)
    ensures Dropped1(policy, ss, i) ==> Dropped2(policy, ss, i)
  {
    SoFarIsFlow(ss, i);
    Verdict1(policy, ss, i);
    Verdict2(policy, ss, i);
    Evidence1IsEvidence2(policy, ss[i].key.value.srcIp, SoFar(ss, i));
  }

  /** The two differ on a packet exactly when V1 has nothing against its flow and V2 has UNKNOWN or some domain. */
  lemma WhereTheyDiffer(policy: Policy, ss: seq<Sighting>, i: nat)
    requires i < |ss| && ss[i].key.Some? && AllSound(ss)
    ensures SoFar(ss, i) != []
    ensures Dropped1(policy, ss, i) != Dropped2(policy, ss, i) <==>
              && !Evidence1(policy, ss[i].key.value.srcIp, SoFar(ss, i))
              && (policy.blocksApp(UNKNOWN) || SawCondemned(policy, SoFar(ss, i)))
  {
    V2IsStricter(policy, ss, i);
    Verdict1(policy, ss, i);
    Verdict2(policy, ss, i);
  }

  /** One name per flow, and it is a TLS name. */
  predicate OneName(xs: seq<Sighting>) {
    && (forall i | 0 <= i < |xs| :: xs[i].httpHost == None)
    && (forall i, j | 0 <= i < |xs| && 0 <= j < |xs| && xs[i].sni.Some? && xs[j].sni.Some? :: xs[i].sni == xs[j].sni)
  }

  lemma OneNameIsFirst(xs: seq<Sighting>, i: nat)
    requires i < |xs| && OneName(xs) && AllSound(xs) && xs[i].Domain().Some?
    ensures FirstSni(xs) == xs[i].Domain()
  {
    assert xs[i].Sound() && xs[i].sni.Some?;
    FirstIsFirst(Runs.SniOf, xs, xs[i].sni.value);
    assert Runs.SniOf(xs[i]).Some?;
    var name := FirstSni(xs).value;
    FirstIsFirst(Runs.SniOf, xs, name);
    var j: nat :| FirstAt(Runs.SniOf, xs, j, name);
  }

  /** They agree on flows that name a single domain, by TLS only, when UNKNOWN is not a blocked application. */
  lemma WhereTheyAgree(policy: Policy, ss: seq<Sighting>, i: nat)
    requires i < |ss| && ss[i].key.Some? && AllSound(ss)
    requires !policy.blocksApp(UNKNOWN) && OneName(SoFar(ss, i))
    ensures Dropped1(policy, ss, i) == Dropped2(policy, ss, i)
  {
    SoFarIsFlow(ss, i);
    WhereTheyDiffer(policy, ss, i);
    var xs := SoFar(ss, i);
    if SawCondemned(policy, xs) {
      var j :| 0 <= j < |xs| && xs[j].Domain().Some? && policy.Condemns(xs[j].Domain().value);
      OneNameIsFirst(xs, j);
    }
  }

  // ---------------------------------------------------------------- results of a V2 run

  predicate AllKeyed(ss: seq<Sighting>) {
    forall i | 0 <= i < |ss| :: ss[i].key.Some?
  }

  ghost predicate Seen(ss: seq<Sighting>, key: Key) {
    exists i :: 0 <= i < |ss| && ss[i].key == key
  }

  lemma SeenSnoc(init: seq<Sighting>, last: Sighting, key: Key)
    ensures Seen(init + [last], key) <==> Seen(init, key) || key == last.key
  {
    var ss := init + [last];
    if Seen(init, key) {
      var i :| 0 <= i < |init| && init[i].key == key;
      assert ss[i] == init[i];
    }
    assert ss[|init|] == last;
  }

  /** The table of a run holds the flows of its packets and no others, each under its own key. */
  lemma {:induction false} Run2IsFiled(policy: Policy, ss: seq<Sighting>)
    ensures Filed(Run2(policy, ss))
    ensures forall k :: k in Run2(policy, ss) <==> Seen(ss, k)
  {
    if ss != [] {
      var init, last := ss[..|ss| - 1], ss[|ss| - 1];
      Run2IsFiled(policy, init);
      Snoc(ss);
      forall k ensures k in Run2(policy, ss) <==> Seen(ss, k) {
        SeenSnoc(init, last, k);
      }
    }
  }

  lemma JudgeKeyed(policy: Policy, t: Table, s: Sighting)
    requires Filed(t) && s.key.Some?
    ensures Judge(policy, t, s) == Some(Verdict(s, Decide(Blocked(ProcessTable(policy, t, s), s.key))))
  {
  }

  lemma {:induction false} OneResultEach(policy: Policy, ss: seq<Sighting>)
    requires AllKeyed(ss)
    ensures |Results2(policy, ss)| == |ss|
  {
    if ss != [] {
      var init := ss[..|ss| - 1];
      OneResultEach(policy, init);
      Run2IsFiled(policy, init);
      JudgeKeyed(policy, Run2(policy, init), ss[|ss| - 1]);
    }
  }

  lemma LastResult(policy: Policy, ss: seq<Sighting>)
    requires AllKeyed(ss) && ss != []
    ensures |Results2(policy, ss)| == |ss|
    ensures Results2(policy, ss)[|ss| - 1].seen == ss[|ss| - 1]
    ensures Results2(policy, ss)[|ss| - 1].decision == DROP <==> Dropped2(policy, ss, |ss| - 1)
  {
    var init := ss[..|ss| - 1];
    OneResultEach(policy, init);
    OneResultEach(policy, ss);
    Run2IsFiled(policy, init);
    JudgeKeyed(policy, Run2(policy, init), ss[|ss| - 1]);
    assert ss[..|ss| - 1 + 1] == ss;
  }

  /** A result once made stays where it is. */
  lemma ResultsGrow(policy: Policy, ss: seq<Sighting>, i: nat)
    requires ss != [] && i < |Results2(policy, ss[..|ss| - 1])|
    ensures i < |Results2(policy, ss)| && Results2(policy, ss)[i] == Results2(policy, ss[..|ss| - 1])[i]
  {
  }

  /** With a five-tuple in every packet nothing raises: one result per packet, in order, with the verdict above. */
  lemma {:induction false} ResultIsVerdict(policy: Policy, ss: seq<Sighting>, i: nat)
    requires AllKeyed(ss) && i < |ss|
    ensures |Results2(policy, ss)| == |ss|
    ensures Results2(policy, ss)[i].seen == ss[i]
    ensures Results2(policy, ss)[i].decision == DROP <==> Dropped2(policy, ss, i)
    decreases |ss|
  {
    OneResultEach(policy, ss);
    if i < |ss| - 1 {
      var init := ss[..|ss| - 1];
      ResultIsVerdict(policy, init, i);
      ResultsGrow(policy, ss, i);
      assert init[..i + 1] == ss[..i + 1];
    } else {
      LastResult(policy, ss);
    }
  }

  /** And the decision is DROP exactly on the evidence of the packet's flow so far. */
  lemma ResultIsEvidence(policy: Policy, ss: seq<Sighting>, i: nat)
    requires AllKeyed(ss) && AllSound(ss) && i < |ss|
    ensures |Results2(policy, ss)| == |ss| && Results2(policy, ss)[i].seen == ss[i]
    ensures Results2(policy, ss)[i].decision == DROP <==> Evidence2(policy, ss[i].key.value.srcIp, SoFar(ss, i))
  {
    ResultIsVerdict(policy, ss, i);
    Verdict2(policy, ss, i);
  }

  // ---------------------------------------------------------------- sharding

  function InShard(sel: Key -> bool): Sighting -> bool {
    (s: Sighting) => sel(s.key)
  }

  function OfShard(sel: Key -> bool): Verdict -> bool {
    (v: Verdict) => sel(v.seen.key)
  }

  function Restrict(t: Table, sel: Key -> bool): Table {
    map k | k in t && sel(k) :: t[k]
  }

  lemma StepInShard(policy: Policy, t: Table, s: Sighting, sel: Key -> bool)
    ensures sel(s.key) ==> ProcessTable(policy, Restrict(t, sel), s) == Restrict(ProcessTable(policy, t, s), sel)
    ensures sel(s.key) ==> Judge(policy, Restrict(t, sel), s) == Judge(policy, t, s)
    ensures !sel(s.key) ==> Restrict(ProcessTable(policy, t, s), sel) == Restrict(t, sel)
  {
    if sel(s.key) {
      assert Lookup(Restrict(t, sel), s.key) == Lookup(t, s.key);
    }
  }

  lemma Run2Snoc(policy: Policy, init: seq<Sighting>, last: Sighting)
    ensures Run2(policy, init + [last]) == ProcessTable(policy, Run2(policy, init), last)
    ensures Results2(policy, init + [last]) == Collect(Results2(policy, init), Judge(policy, Run2(policy, init), last))
  {
    assert (init + [last])[..|init|] == init;
  }

  lemma FilterCollect(sel: Key -> bool, results: seq<Verdict>, outcome: Option<Verdict>)
    ensures Filter(OfShard(sel), Collect(results, outcome)) ==
              if outcome.Some? && sel(outcome.value.seen.key) then Collect(Filter(OfShard(sel), results), outcome)
              else Filter(OfShard(sel), results)
  {
    if outcome.Some? { FilterSnoc(OfShard(sel), results, outcome.value); }
  }

  /** Running on the packets of some flows only gives exactly those flows' part of the whole run. */
  lemma {:induction false} Shard(policy: Policy, ss: seq<Sighting>, sel: Key -> bool)
    ensures Run2(policy, Filter(InShard(sel), ss)) == Restrict(Run2(policy, ss), sel)
    ensures Results2(policy, Filter(InShard(sel), ss)) == Filter(OfShard(sel), Results2(policy, ss))
  {
    if ss != [] {
      var init, last := ss[..|ss| - 1], ss[|ss| - 1];
      Shard(policy, init, sel);
      Snoc(ss);
      Run2Snoc(policy, init, last);
      Run2Snoc(policy, Filter(InShard(sel), init), last);
      StepInShard(policy, Run2(policy, init), last, sel);
      FilterSnoc(InShard(sel), init, last);
      FilterCollect(sel, Results2(policy, init), Judge(policy, Run2(policy, init), last));
    }
  }
}
