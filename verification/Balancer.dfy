/** Flow-to-worker assignment: `FlowKey.canonical` and `FlowBalancer.get_worker`. */
module Balancer {
  import opened Base
  import opened Text

  datatype FlowKey = FlowKey(srcIp: string, dstIp: string, srcPort: nat, dstPort: nat, protocol: string) {

    /** The same conversation seen from the other end. */
    function Mirror(): FlowKey {
      FlowKey(dstIp, srcIp, dstPort, srcPort, protocol)
    }

    /** `canonical`: the lesser of the two endpoint tuples, with the protocol. */
    function Canonical(): FlowKey {
      if EndpointsLess(Mirror(), this) then Mirror() else this
    }
  }

  // ---------------------------------------------------------------- Python's tuple order

  /** String order by code points. */
  predicate StringLess(s: string, t: string) {
    if t == "" then false
    else if s == "" then true
    else s[0] < t[0] || (s[0] == t[0] && StringLess(s[1..], t[1..]))
  }

  /** Exactly one of less, equal, greater. */
  lemma {:induction false} StringTrichotomy(s: string, t: string)
    ensures !(StringLess(s, t) && StringLess(t, s))
    ensures s != t <==> StringLess(s, t) || StringLess(t, s)
  {
    if s != "" && t != "" {
      StringTrichotomy(s[1..], t[1..]);
      assert s == [s[0]] + s[1..] && t == [t[0]] + t[1..];
    }
  }

  /** The strings agree before position `i` and `s` is the lesser there, or ends there. */
  predicate LessAt(s: string, t: string, i: nat) {
    i <= |s| && i < |t| && s[..i] == t[..i] && (i < |s| ==> s[i] < t[i])
  }

  /** Less is less at the first difference. */
  lemma {:induction false} LessIsFirstDifference(s: string, t: string)
    ensures StringLess(s, t) <==> exists i: nat :: LessAt(s, t, i)
  {
    if t != "" {
      if s == "" || s[0] < t[0] {
        assert LessAt(s, t, 0);
      } else if s[0] == t[0] {
        LessIsFirstDifference(s[1..], t[1..]);
        if i: nat :| LessAt(s[1..], t[1..], i) {
          assert s[..i + 1] == [s[0]] + s[1..][..i] && t[..i + 1] == [t[0]] + t[1..][..i];
          assert LessAt(s, t, i + 1);
        }
        if i: nat :| LessAt(s, t, i) {
          assert i > 0 && s[1..][..i - 1] == s[..i][1..] && t[1..][..i - 1] == t[..i][1..];
          assert LessAt(s[1..], t[1..], i - 1);
        }
      } else {
        forall i: nat ensures !LessAt(s, t, i) {
          if i > 0 && i <= |s| && i <= |t| { assert s[..i][0] != t[..i][0]; }
        }
      }
    }
  }

  /** Order of the tuples (src_ip, dst_ip, src_port, dst_port). */
  predicate EndpointsLess(a: FlowKey, b: FlowKey) {
    if a.srcIp != b.srcIp then StringLess(a.srcIp, b.srcIp)
    else if a.dstIp != b.dstIp then StringLess(a.dstIp, b.dstIp)
    else if a.srcPort != b.srcPort then a.srcPort < b.srcPort
    else a.dstPort < b.dstPort
  }

  lemma EndpointsTrichotomy(a: FlowKey, b: FlowKey)
    requires a.protocol == b.protocol
    ensures !(EndpointsLess(a, b) && EndpointsLess(b, a))
    ensures a != b <==> EndpointsLess(a, b) || EndpointsLess(b, a)
  {
    StringTrichotomy(a.srcIp, b.srcIp);
    StringTrichotomy(a.dstIp, b.dstIp);
  }

  /** Two flows have one canonical form exactly when they are equal or mirror images. */
  lemma CanonicalIsDirectionFree(a: FlowKey, b: FlowKey)
    ensures a.Canonical() == b.Canonical() <==> a == b || a == b.Mirror()
  {
    EndpointsTrichotomy(a, a.Mirror());
    EndpointsTrichotomy(b, b.Mirror());
    assert b.Mirror().Mirror() == b;
  }

  /** The canonical form starts from the lesser address, and between equal addresses from the lesser port. */
  lemma CanonicalIsLeast(flow: FlowKey)
    ensures var c := flow.Canonical();
            && (c == flow || c == flow.Mirror())
            && (c.srcIp != c.dstIp ==> exists i: nat :: LessAt(c.srcIp, c.dstIp, i))
            && (c.srcIp == c.dstIp ==> c.srcPort <= c.dstPort)
  {
    StringTrichotomy(flow.srcIp, flow.dstIp);
    LessIsFirstDifference(flow.srcIp, flow.dstIp);
    LessIsFirstDifference(flow.dstIp, flow.srcIp);
  }

  // ---------------------------------------------------------------- the hashed text

  const BAR := "|"

  function Digit(n: nat): char
    requires n < 10
  {
    '0' + n as char
  }

  /** `str(n)`. */
  function Decimal(n: nat): (s: string)
    ensures s != ""
  {
    if n < 10 then [Digit(n)] else Decimal(n / 10) + [Digit(n % 10)]
  }

  /** The number that decimal digits stand for. */
  function Value(digits: string): int {
    if digits == "" then 0 else 10 * Value(digits[..|digits| - 1]) + (digits[|digits| - 1] as int - '0' as int)
  }

  /** `str(n)` stands for `n`, and has no leading zero. */
  lemma {:induction false} DecimalHasValue(n: nat)
    ensures Value(Decimal(n)) == n
    ensures n > 0 ==> Decimal(n)[0] != '0'
  {
    if n >= 10 {
      DecimalHasValue(n / 10);
      assert Decimal(n)[..|Decimal(n)| - 1] == Decimal(n / 10);
    } else {
      assert Decimal(n)[..0] == "";
    }
  }

  lemma {:induction false} DecimalIsInjective(m: nat, n: nat)
    ensures Decimal(m) == Decimal(n) ==> m == n
    ensures '|' !in Decimal(m)
  {
    if m >= 10 {
      DecimalIsInjective(m / 10, n / 10);
      assert Decimal(m)[..|Decimal(m)| - 1] == Decimal(m / 10);
      assert Decimal(m)[|Decimal(m)| - 1] == Digit(m % 10);
    }
    if n >= 10 {
      assert Decimal(n)[..|Decimal(n)| - 1] == Decimal(n / 10);
      assert Decimal(n)[|Decimal(n)| - 1] == Digit(n % 10);
    }
  }

  function Parts(k: FlowKey): seq<string> {
    [k.srcIp, k.dstIp, Decimal(k.srcPort), Decimal(k.dstPort), k.protocol]
  }

  /** `"|".join(str(part) for part in flow.canonical())`. */
  function KeyText(flow: FlowKey): string {
    Join(Parts(flow.Canonical()), BAR)
  }

  predicate BarFree(k: FlowKey) {
    '|' !in k.srcIp && '|' !in k.dstIp && '|' !in k.protocol
  }

  lemma SplitParts(k: FlowKey)
    requires BarFree(k)
    ensures Split(Join(Parts(k), BAR), BAR) == Parts(k)
  {
    DecimalIsInjective(k.srcPort, 0);
    DecimalIsInjective(k.dstPort, 0);
    forall i | 0 <= i < 5 ensures FreeOf(Parts(k)[i], BAR) {
      FreeOfChar(Parts(k)[i], '|');
    }
    SplitJoin(Parts(k), BAR);
  }

  /** The hashed text holds, between bars and in this order, the lesser end's and the other's address, the port of each,
      and the protocol. */
  lemma KeyTextHolds(flow: FlowKey)
    requires BarFree(flow)
    ensures var c, parts := flow.Canonical(), Split(KeyText(flow), "|");
            && |parts| == 5 && parts[0] == c.srcIp && parts[1] == c.dstIp && parts[4] == c.protocol
            && Value(parts[2]) == c.srcPort && Value(parts[3]) == c.dstPort
  {
    SplitParts(flow.Canonical());
    DecimalHasValue(flow.Canonical().srcPort);
    DecimalHasValue(flow.Canonical().dstPort);
  }

  /** The hashed text tells two conversations apart whenever no address or protocol holds a bar. */
  lemma KeyTextIsFaithful(a: FlowKey, b: FlowKey)
    requires BarFree(a) && BarFree(b)
    ensures KeyText(a) == KeyText(b) <==> a == b || a == b.Mirror()
  {
    var ca, cb := a.Canonical(), b.Canonical();
    CanonicalIsDirectionFree(a, b);
    SplitParts(ca);
    SplitParts(cb);
    if KeyText(a) == KeyText(b) {
      assert Parts(ca) == Parts(cb);
      assert Parts(ca)[0] == Parts(cb)[0] && Parts(ca)[1] == Parts(cb)[1] && Parts(ca)[4] == Parts(cb)[4];
      assert Parts(ca)[2] == Parts(cb)[2] && Parts(ca)[3] == Parts(cb)[3];
      DecimalIsInjective(ca.srcPort, cb.srcPort);
      DecimalIsInjective(ca.dstPort, cb.dstPort);
    }
  }

  // ---------------------------------------------------------------- the balancer

  /** `FlowBalancer`; the checksum may be any function of the key bytes. */
  datatype FlowBalancer = FlowBalancer(workerCount: pos, checksum: seq<byte> -> nat) {

    /** `get_worker`. */
    function GetWorker(flow: FlowKey): (w: nat)
      ensures w < workerCount
    {
      checksum(Encode(KeyText(flow))) % workerCount
    }

    /** Both directions of a conversation go to one worker. */
    lemma BothDirectionsMeet(flow: FlowKey)
      ensures GetWorker(flow.Mirror()) == GetWorker(flow)
    {
      CanonicalIsDirectionFree(flow, flow.Mirror());
      assert flow.Mirror().Mirror() == flow;
    }
  }

  /** The worker is the checksum of the key text less a multiple of the worker count. */
  lemma WorkerIsResidue(balancer: FlowBalancer, flow: FlowKey) returns (q: nat)
    ensures balancer.checksum(Encode(KeyText(flow))) == q * balancer.workerCount + balancer.GetWorker(flow)
  {
    q := balancer.checksum(Encode(KeyText(flow))) / balancer.workerCount;
  }

  /** Every worker may be the one: some checksum chooses it. */
  lemma AnyWorkerMayServe(workerCount: pos, flow: FlowKey, w: nat) returns (checksum: seq<byte> -> nat)
    requires w < workerCount
    ensures FlowBalancer(workerCount, checksum).GetWorker(flow) == w
  {
    checksum := (bytes: seq<byte>) => w;
  }

  /** With two workers or more, some checksum parts any two different conversations. */
  lemma ConversationsMayPart(workerCount: pos, a: FlowKey, b: FlowKey) returns (checksum: seq<byte> -> nat)
    requires workerCount >= 2 && BarFree(a) && BarFree(b) && a != b && a != b.Mirror()
    ensures FlowBalancer(workerCount, checksum).GetWorker(a) != FlowBalancer(workerCount, checksum).GetWorker(b)
  {
    hide KeyText, Encode, BarFree;
    checksum := Marks(Encode(KeyText(a)));
    BytesAreFaithful(a, b);
  }

  /** 0 for these bytes, 1 for all others. */
  function Marks(mine: seq<byte>): seq<byte> -> nat {
    (bytes: seq<byte>) => if bytes == mine then 0 else 1
  }

  lemma BytesAreFaithful(a: FlowKey, b: FlowKey)
    requires BarFree(a) && BarFree(b) && a != b && a != b.Mirror()
    ensures Encode(KeyText(a)) != Encode(KeyText(b))
  {
    KeyTextIsFaithful(a, b);
    DecodeEncode(KeyText(a));
    DecodeEncode(KeyText(b));
  }

  /** `FlowBalancer.__init__`; None is its ValueError. */
  function CreateBalancer(workerCount: int, checksum: seq<byte> -> nat): (b: Option<FlowBalancer>)
    ensures b.Some? <==> workerCount > 0
    ensures b.Some? ==> b.value.workerCount == workerCount
  {
    if workerCount <= 0 then None else Some(FlowBalancer(workerCount, checksum))
  }
}
