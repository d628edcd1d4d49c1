/** The TLS ClientHello: the SNI walk of `SNIExtractor.extract` and the builder `build_client_hello`. */
module ClientHello {
  import opened Base
  import Text

  const SESSION_ID_OFFSET: nat := 43
  const EXTENSION_TYPE_SNI: nat := 0x0000
  const LONGEST_HOST: nat := 65479

  // ---------------------------------------------------------------- the grammar, as a recursive parser

  /** The first two bytes as a big-endian number. */
  function U16(b: seq<byte>): (n: nat)
    requires |b| >= 2
    ensures n < 0x1_0000
  {
    (b[0] as int) * 256 + b[1] as int
  }

  function Min(a: nat, b: nat): nat {
    if a < b then a else b
  }

  /** What follows a vector with a one-byte length. */
  function SkipVector8(b: seq<byte>): Option<seq<byte>> {
    if |b| < 1 || 1 + b[0] as int > |b| then None else Some(b[1 + b[0] as int..])
  }

  /** What follows a vector with a two-byte length. */
  function SkipVector16(b: seq<byte>): Option<seq<byte>> {
    if |b| < 2 || 2 + U16(b) > |b| then None else Some(b[2 + U16(b)..])
  }

  /** The host name after the list length and the name type, and the bytes behind it. */
  function HostName(b: seq<byte>): Option<(seq<byte>, seq<byte>)> {
    if |b| < 5 || 5 + U16(b[3..]) > |b| then None
    else Some((b[5..5 + U16(b[3..])], b[5 + U16(b[3..])..]))
  }

  /** The host name of the first server_name extension among the first `budget` bytes. */
  function FindServerName(b: seq<byte>, budget: nat): Option<(seq<byte>, seq<byte>)>
    requires budget <= |b|
    decreases budget
  {
    if budget < 4 then None
    else if U16(b) == EXTENSION_TYPE_SNI then HostName(b[4..])
    else if 4 + U16(b[2..]) > budget then None
    else FindServerName(b[4 + U16(b[2..])..], budget - (4 + U16(b[2..])))
  }

  function ExtensionBlock(b: seq<byte>): Option<(seq<byte>, seq<byte>)> {
    if |b| < 2 then None
    else FindServerName(b[2..], Min(U16(b), |b| - 2))
  }

  predicate IsClientHello(p: seq<byte>) {
    |p| >= 6 && p[0] == 0x16 && p[5] == 0x01
  }

  /** What follows the session ID, the cipher suites and the compression methods. */
  function AfterMethods(b: seq<byte>): Option<seq<byte>> {
    var ciphers :- SkipVector8(b);
    var compressions :- SkipVector16(ciphers);
    SkipVector8(compressions)
  }

  /** The raw host name in a ClientHello record, and the bytes behind it. */
  function ServerName(p: seq<byte>): Option<(seq<byte>, seq<byte>)> {
    if !IsClientHello(p) || |p| < SESSION_ID_OFFSET then None
    else
      var extensions :- AfterMethods(p[SESSION_ID_OFFSET..]);
      ExtensionBlock(extensions)
  }

  /** `server_name or None`: an empty text is no name. */
  function NonEmpty(s: string): Option<string> {
    if s == "" then None else Some(s)
  }

  function Named(found: Option<(seq<byte>, seq<byte>)>): Option<string> {
    if found.Some? then NonEmpty(Text.Decode(found.value.0)) else None
  }

  /** The SNI of a payload: the decoded host name, if it is not empty. */
  function Sni(p: seq<byte>): Option<string> {
    Named(ServerName(p))
  }

  // ---------------------------------------------------------------- the imperative walk

  // The same grammar with offsets into the whole payload instead of suffixes of it.

  lemma Vector8At(p: seq<byte>, offset: nat)
    requires offset < |p|
    ensures var next := offset + 1 + p[offset] as int;
            SkipVector8(p[offset..]) == if next > |p| then None else Some(p[next..])
  {
    var next := offset + 1 + p[offset] as int;
    if next <= |p| { assert p[offset..][next - offset..] == p[next..]; }
  }

  lemma Vector16At(p: seq<byte>, offset: nat)
    requires offset + 2 <= |p|
    ensures var next := offset + 2 + U16(p[offset..offset + 2]);
            SkipVector16(p[offset..]) == if next > |p| then None else Some(p[next..])
  {
    var next := offset + 2 + U16(p[offset..offset + 2]);
    if next <= |p| { assert p[offset..][next - offset..] == p[next..]; }
  }

  /** The search that the loop still has to make when it stands at `offset`. */
  ghost function SearchFrom(p: seq<byte>, offset: nat, end: nat): (r: Option<(seq<byte>, seq<byte>)>)
    requires end <= |p|
    ensures offset + 4 > end ==> r == None
  {
    if offset <= end then FindServerName(p[offset..], end - offset) else None
  }

  lemma ExtensionBlockAt(p: seq<byte>, offset: nat)
    requires offset <= |p|
    ensures ExtensionBlock(p[offset..]) ==
              if offset + 2 > |p| then None
              else SearchFrom(p, offset + 2, Min(offset + 2 + U16(p[offset..offset + 2]), |p|))
  {
    if offset + 2 <= |p| { assert p[offset..][2..] == p[offset + 2..]; }
  }

  /** One turn of the extension loop, in terms of offsets into the whole payload. */
  lemma ExtensionAt(p: seq<byte>, offset: nat, end: nat)
    requires offset + 4 <= end <= |p|
    ensures var kind := U16(p[offset..offset + 2]);
            var size := U16(p[offset + 2..offset + 4]);
            SearchFrom(p, offset, end) ==
              if kind == EXTENSION_TYPE_SNI then HostName(p[offset + 4..])
              else SearchFrom(p, offset + 4 + size, end)
  {
    var b := p[offset..];
    assert b[2..] == p[offset + 2..] && b[4..] == p[offset + 4..];
    var size := U16(b[2..]);
    if offset + 4 + size <= end { assert b[4 + size..] == p[offset + 4 + size..]; }
  }

  lemma HostNameAt(p: seq<byte>, offset: nat)
    requires offset + 5 <= |p|
    ensures var n := U16(p[offset + 3..offset + 5]);
            HostName(p[offset..]) ==
              if offset + 5 + n > |p| then None
              else Some((p[offset + 5..offset + 5 + n], p[offset + 5 + n..]))
  {
    var b := p[offset..];
    assert b[3..] == p[offset + 3..];
    var n := U16(b[3..]);
    if offset + 5 + n <= |p| {
      assert b[5..5 + n] == p[offset + 5..offset + 5 + n] && b[5 + n..] == p[offset + 5 + n..];
    }
  }

  lemma SniAt(p: seq<byte>, offset: nat)
    requires IsClientHello(p) && SESSION_ID_OFFSET <= |p| && offset <= |p|
    requires AfterMethods(p[SESSION_ID_OFFSET..]) == Some(p[offset..])
    ensures Sni(p) == if offset + 2 > |p| then None
                      else Named(SearchFrom(p, offset + 2, Min(offset + 2 + U16(p[offset..offset + 2]), |p|)))
  {
    ExtensionBlockAt(p, offset);
  }

  /** `SNIExtractor.extract`: one moving offset, every read bounds-checked against the real payload. */
  method Extract(payload: seq<byte>) returns (sni: Option<string>)
    ensures sni == Sni(payload)
  {
    if payload == [] { return None; }
    var length := |payload|;
    if length < 6 { return None; }
    if payload[0] != 0x16 { return None; }
    if payload[5] != 0x01 { return None; }
    if SESSION_ID_OFFSET >= length { return None; }

    var located := LocateExtensions(payload, SESSION_ID_OFFSET);
    if located == None { return None; }
    var offset := located.value;
    SniAt(payload, offset);
    if offset + 2 > length { return None; }
    var extensionsLength := U16(payload[offset..offset + 2]);
    offset := offset + 2;
    var extensionsEnd := Min(offset + extensionsLength, length);
    sni := SearchExtensions(payload, offset, extensionsEnd);
  }

  /** The part of `extract` that steps over the session ID, the cipher suites and the compression methods. */
  method LocateExtensions(payload: seq<byte>, start: nat) returns (located: Option<nat>)
    requires start < |payload|
    ensures located.Some? ==> located.value <= |payload|
    ensures AfterMethods(payload[start..]) == if located == None then None else Some(payload[located.value..])
  {
    var length := |payload|;
    var offset := start;
    Vector8At(payload, offset);
    var sessionIdLength := payload[offset] as int;
    offset := offset + 1 + sessionIdLength;

    if offset + 2 > length { return None; }
    Vector16At(payload, offset);
    var cipherSuiteLength := U16(payload[offset..offset + 2]);
    offset := offset + 2 + cipherSuiteLength;

    if offset >= length { return None; }
    Vector8At(payload, offset);
    var compressionMethodLength := payload[offset] as int;
    offset := offset + 1 + compressionMethodLength;

    if offset > length { return None; }
    located := Some(offset);
  }

  /** The extension loop of `extract`, from the first extension on. */
  method SearchExtensions(payload: seq<byte>, start: nat, extensionsEnd: nat) returns (sni: Option<string>)
    requires extensionsEnd <= |payload|
    ensures sni == Named(SearchFrom(payload, start, extensionsEnd))
  {
    var offset := start;
    ghost var found := SearchFrom(payload, start, extensionsEnd);
    while offset + 4 <= extensionsEnd
      invariant found == SearchFrom(payload, offset, extensionsEnd)
      decreases extensionsEnd - offset
    {
      ExtensionAt(payload, offset, extensionsEnd);
      var extensionType := U16(payload[offset..offset + 2]);
      var extensionLength := U16(payload[offset + 2..offset + 4]);

      if extensionType == EXTENSION_TYPE_SNI {
        sni := ReadServerName(payload, offset + 4);
        return;
      }
      offset := offset + 4 + extensionLength;
    }
    return None;
  }

  /** The body of a server_name extension, in the extension loop of `extract`. */
  method ReadServerName(payload: seq<byte>, sniOffset: nat) returns (sni: Option<string>)
    requires sniOffset <= |payload|
    ensures sni == Named(HostName(payload[sniOffset..]))
  {
    var length := |payload|;
    if sniOffset + 5 > length { return None; }
    HostNameAt(payload, sniOffset);
    var serverNameLength := U16(payload[sniOffset + 3..sniOffset + 5]);
    var nameStart := sniOffset + 5;
    var nameEnd := nameStart + serverNameLength;
    if nameEnd > length { return None; }
    var serverName := Text.Decode(payload[nameStart..nameEnd]);
    return NonEmpty(serverName);
  }

  // ---------------------------------------------------------------- the grammar, as a printer

  /** A two-byte big-endian number. */
  function Be16(n: nat): (r: seq<byte>)
    requires n < 0x1_0000
    ensures |r| == 2 && U16(r) == n
  {
    [n / 256, n % 256]
  }

  datatype Extension = Extension(kind: nat, data: seq<byte>)

  /** An extension the walk steps over. */
  predicate IsSkipped(e: Extension) {
    e.kind != EXTENSION_TYPE_SNI && e.kind < 0x1_0000 && |e.data| < 0x1_0000
  }

  predicate AllSkipped(es: seq<Extension>) {
    forall i | 0 <= i < |es| :: IsSkipped(es[i])
  }

  /** Everything in a ClientHello record up to the host name's own length field. */
  datatype Hello = Hello(
    head: seq<byte>,              // record header, handshake header, version, random
    session: seq<byte>,
    ciphers: seq<byte>,
    compressions: seq<byte>,
    extensionsLength: nat,        // as declared
    skipped: seq<Extension>,      // the extensions before server_name
    sniLength: nat,               // as declared
    listHeader: seq<byte>)        // list length and name type
  {
    predicate Shaped() {
      && |head| == SESSION_ID_OFFSET && head[0] == 0x16 && head[5] == 0x01
      && |session| < 0x100 && |ciphers| < 0x1_0000 && |compressions| < 0x100
      && AllSkipped(skipped)
      && Size(skipped) + 4 <= extensionsLength < 0x1_0000
      && sniLength < 0x1_0000 && |listHeader| == 3
    }
  }

  function Size(es: seq<Extension>): nat {
    if es == [] then 0 else 4 + |es[0].data| + Size(es[1..])
  }

  function Vector8(v: seq<byte>, tail: seq<byte>): seq<byte>
    requires |v| < 0x100
  {
    [|v| as byte] + v + tail
  }

  function Vector16(v: seq<byte>, tail: seq<byte>): seq<byte>
    requires |v| < 0x1_0000
  {
    Be16(|v|) + v + tail
  }

  function Extensions(es: seq<Extension>, tail: seq<byte>): seq<byte>
    requires AllSkipped(es)
  {
    if es == [] then tail
    else Be16(es[0].kind) + Be16(|es[0].data|) + es[0].data + Extensions(es[1..], tail)
  }

  function ServerNameExtension(h: Hello, name: seq<byte>, rest: seq<byte>): seq<byte>
    requires h.Shaped() && |name| < 0x1_0000
  {
    Be16(EXTENSION_TYPE_SNI) + Be16(h.sniLength) + (h.listHeader + Be16(|name|) + name + rest)
  }

  /** The record that carries `name` after `h`, followed by `rest`. */
  function Print(h: Hello, name: seq<byte>, rest: seq<byte>): seq<byte>
    requires h.Shaped() && |name| < 0x1_0000
  {
    h.head + Vector8(h.session, Vector16(h.ciphers, Vector8(h.compressions,
      Be16(h.extensionsLength) + Extensions(h.skipped, ServerNameExtension(h, name, rest)))))
  }

  // ---------------------------------------------------------------- parsing inverts printing

  lemma SkipPrinted(v: seq<byte>, tail: seq<byte>)
    ensures |v| < 0x100 ==> SkipVector8(Vector8(v, tail)) == Some(tail)
    ensures |v| < 0x1_0000 ==> SkipVector16(Vector16(v, tail)) == Some(tail)
  {
    if |v| < 0x1_0000 {
      var b := Vector16(v, tail);
      assert b[..2] == Be16(|v|) && U16(b) == |v| && b[2 + |v|..] == tail;
    }
    if |v| < 0x100 {
      assert Vector8(v, tail)[1 + |v|..] == tail;
    }
  }

  lemma HostNamePrinted(header: seq<byte>, name: seq<byte>, rest: seq<byte>)
    requires |header| == 3 && |name| < 0x1_0000
    ensures HostName(header + Be16(|name|) + name + rest) == Some((name, rest))
  {
    var b := header + Be16(|name|) + name + rest;
    assert b[3..][..2] == Be16(|name|);
    assert U16(b[3..]) == |name|;
    assert b[5..5 + |name|] == name && b[5 + |name|..] == rest;
  }

  lemma HeaderPrinted(kind: nat, data: seq<byte>, tail: seq<byte>)
    requires kind < 0x1_0000 && |data| < 0x1_0000
    ensures var b := Be16(kind) + Be16(|data|) + data + tail;
            U16(b) == kind && U16(b[2..]) == |data| && b[4 + |data|..] == tail
  {
  }

  /** The server_name extension itself. */
  lemma ServerNamePrinted(h: Hello, name: seq<byte>, rest: seq<byte>, budget: nat)
    requires h.Shaped() && |name| < 0x1_0000 && 4 <= budget <= |ServerNameExtension(h, name, rest)|
    ensures FindServerName(ServerNameExtension(h, name, rest), budget) == Some((name, rest))
  {
    var b := ServerNameExtension(h, name, rest);
    assert b[..2] == Be16(0) && U16(b) == 0;
    assert b[4..] == h.listHeader + Be16(|name|) + name + rest;
    HostNamePrinted(h.listHeader, name, rest);
  }

  /** One step of the search over an extension of another type. */
  lemma FindSkips(b: seq<byte>, size: nat, next: seq<byte>, budget: nat)
    requires 4 + size <= budget <= |b| && U16(b) != EXTENSION_TYPE_SNI && U16(b[2..]) == size && b[4 + size..] == next
    ensures FindServerName(b, budget) == FindServerName(next, budget - (4 + size))
  {
  }

  lemma {:induction false} ExtensionsPrinted(
    h: Hello, es: seq<Extension>, name: seq<byte>, rest: seq<byte>, budget: nat)
    requires h.Shaped() && |name| < 0x1_0000 && AllSkipped(es)
    requires Size(es) + 4 <= budget <= |Extensions(es, ServerNameExtension(h, name, rest))|
    ensures FindServerName(Extensions(es, ServerNameExtension(h, name, rest)), budget) == Some((name, rest))
    decreases |es|
  {
    var tail := ServerNameExtension(h, name, rest);
    if es == [] {
      ServerNamePrinted(h, name, rest, budget);
    } else {
      var e, more := es[0], Extensions(es[1..], tail);
      HeaderPrinted(e.kind, e.data, more);
      FindSkips(Extensions(es, tail), |e.data|, more, budget);
      ExtensionsPrinted(h, es[1..], name, rest, budget - (4 + |e.data|));
    }
  }

  lemma ExtensionsLength(es: seq<Extension>, tail: seq<byte>)
    requires AllSkipped(es)
    ensures |Extensions(es, tail)| == Size(es) + |tail|
  {
  }

  /** Parsing a printed ClientHello gives back the name and what follows it. */
  lemma ParsePrinted(h: Hello, name: seq<byte>, rest: seq<byte>)
    requires h.Shaped() && |name| < 0x1_0000
    ensures ServerName(Print(h, name, rest)) == Some((name, rest))
  {
    var sni := ServerNameExtension(h, name, rest);
    var exts := Extensions(h.skipped, sni);
    var block := Be16(h.extensionsLength) + exts;
    var compressions := Vector8(h.compressions, block);
    var ciphers := Vector16(h.ciphers, compressions);
    SkipPrinted(h.session, ciphers);
    SkipPrinted(h.ciphers, compressions);
    SkipPrinted(h.compressions, block);
    HeadPrinted(h.head, Vector8(h.session, ciphers));
    BlockPrinted(h, name, rest);
  }

  lemma HeadPrinted(head: seq<byte>, b: seq<byte>)
    requires |head| == SESSION_ID_OFFSET && head[0] == 0x16 && head[5] == 0x01
    ensures IsClientHello(head + b) && (head + b)[SESSION_ID_OFFSET..] == b
  {
  }

  lemma BlockPrinted(h: Hello, name: seq<byte>, rest: seq<byte>)
    requires h.Shaped() && |name| < 0x1_0000
    ensures ExtensionBlock(Be16(h.extensionsLength) + Extensions(h.skipped, ServerNameExtension(h, name, rest)))
         == Some((name, rest))
  {
    var sni := ServerNameExtension(h, name, rest);
    var exts := Extensions(h.skipped, sni);
    var block := Be16(h.extensionsLength) + exts;
    assert block[..2] == Be16(h.extensionsLength) && U16(block) == h.extensionsLength;
    assert block[2..] == exts;
    ExtensionsLength(h.skipped, sni);
    var budget := Min(U16(block), |block| - 2);
    ExtensionsPrinted(h, h.skipped, name, rest, budget);
  }

  // ---------------------------------------------------------------- printing inverts parsing

  lemma Be16OfU16(b: seq<byte>)
    requires |b| >= 2
    ensures Be16(U16(b)) == b[..2]
  {
  }

  lemma ExtensionsCons(e: Extension, more: seq<Extension>, tail: seq<byte>)
    requires IsSkipped(e) && AllSkipped(more)
    ensures AllSkipped([e] + more) && Size([e] + more) == 4 + |e.data| + Size(more)
    ensures Extensions([e] + more, tail) == Be16(e.kind) + Be16(|e.data|) + (e.data + Extensions(more, tail))
  {
    assert ([e] + more)[1..] == more;
  }

  lemma ReadTwoNumbers(b: seq<byte>)
    requires |b| >= 4
    ensures b == Be16(U16(b)) + Be16(U16(b[2..])) + b[4..]
  {
    Be16OfU16(b);
    Be16OfU16(b[2..]);
    assert b == b[..2] + b[2..][..2] + b[4..];
  }

  lemma ReadData(b: seq<byte>, size: nat)
    requires 4 + size <= |b|
    ensures b[4..] == b[4..4 + size] + b[4 + size..]
  {
  }

  lemma ReadHostName(b: seq<byte>, name: seq<byte>, rest: seq<byte>)
    requires HostName(b) == Some((name, rest))
    ensures |name| < 0x1_0000 && b == b[..3] + Be16(|name|) + name + rest
  {
    Be16OfU16(b[3..]);
    assert b[3..][..2] == b[3..5];
    assert b == b[..3] + b[3..5] + name + rest;
  }

  /** The extension list in front of a found server name, and the header fields of the one found. */
  lemma {:induction false} ReadExtensions(b: seq<byte>, budget: nat, name: seq<byte>, rest: seq<byte>)
      returns (es: seq<Extension>, sniLength: nat, listHeader: seq<byte>)
    requires budget <= |b| && FindServerName(b, budget) == Some((name, rest))
    ensures AllSkipped(es) && Size(es) + 4 <= budget
    ensures sniLength < 0x1_0000 && |listHeader| == 3 && |name| < 0x1_0000
    ensures b == Extensions(es, Be16(EXTENSION_TYPE_SNI) + Be16(sniLength) + (listHeader + Be16(|name|) + name + rest))
    decreases budget
  {
    ReadTwoNumbers(b);
    if U16(b) == EXTENSION_TYPE_SNI {
      es, sniLength, listHeader := [], U16(b[2..]), b[4..][..3];
      ReadHostName(b[4..], name, rest);
    } else {
      var size := U16(b[2..]);
      var e := Extension(U16(b), b[4..4 + size]);
      var after := b[4 + size..];
      var more;
      more, sniLength, listHeader := ReadExtensions(after, budget - (4 + size), name, rest);
      es := [e] + more;
      ReadData(b, size);
      ExtensionsCons(e, more, Be16(EXTENSION_TYPE_SNI) + Be16(sniLength) + (listHeader + Be16(|name|) + name + rest));
    }
  }

  lemma ReadVector8(b: seq<byte>, tail: seq<byte>) returns (v: seq<byte>)
    requires SkipVector8(b) == Some(tail)
    ensures |v| < 0x100 && b == Vector8(v, tail)
  {
    v := b[1..1 + b[0] as int];
  }

  lemma ReadVector16(b: seq<byte>, tail: seq<byte>) returns (v: seq<byte>)
    requires SkipVector16(b) == Some(tail)
    ensures |v| < 0x1_0000 && b == Vector16(v, tail)
  {
    v := b[2..2 + U16(b)];
    Be16OfU16(b);
  }

  lemma ReadMethods(b: seq<byte>, extensions: seq<byte>)
      returns (session: seq<byte>, ciphers: seq<byte>, compressions: seq<byte>)
    requires AfterMethods(b) == Some(extensions)
    ensures |session| < 0x100 && |ciphers| < 0x1_0000 && |compressions| < 0x100
    ensures b == Vector8(session, Vector16(ciphers, Vector8(compressions, extensions)))
  {
    var afterSession := SkipVector8(b).value;
    var afterCiphers := SkipVector16(afterSession).value;
    session := ReadVector8(b, afterSession);
    ciphers := ReadVector16(afterSession, afterCiphers);
    compressions := ReadVector8(afterCiphers, extensions);
  }

  lemma ReadExtensionBlock(b: seq<byte>, name: seq<byte>, rest: seq<byte>)
      returns (size: nat, es: seq<Extension>, sniLength: nat, listHeader: seq<byte>)
    requires ExtensionBlock(b) == Some((name, rest))
    ensures AllSkipped(es) && Size(es) + 4 <= size < 0x1_0000
    ensures sniLength < 0x1_0000 && |listHeader| == 3 && |name| < 0x1_0000
    ensures b == Be16(size)
                 + Extensions(
                     es, Be16(EXTENSION_TYPE_SNI) + Be16(sniLength) + (listHeader + Be16(|name|) + name + rest))
  {
    size := U16(b);
    es, sniLength, listHeader := ReadExtensions(b[2..], Min(size, |b| - 2), name, rest);
    Be16OfU16(b);
    assert b == b[..2] + b[2..];
  }

  /** Every payload that parses is a printed ClientHello. */
  lemma PrintParsed(p: seq<byte>, name: seq<byte>, rest: seq<byte>) returns (h: Hello)
    requires ServerName(p) == Some((name, rest))
    ensures h.Shaped() && |name| < 0x1_0000 && p == Print(h, name, rest)
  {
    var extensions := AfterMethods(p[SESSION_ID_OFFSET..]).value;
    var session, suites, methods := ReadMethods(p[SESSION_ID_OFFSET..], extensions);
    var size, es, sniLength, listHeader := ReadExtensionBlock(extensions, name, rest);
    h := Hello(p[..SESSION_ID_OFFSET], session, suites, methods, size, es, sniLength, listHeader);
    assert p == h.head + p[SESSION_ID_OFFSET..];
  }

  /** `p` is a ClientHello as the walk reads one: its first server_name extension names `name`, and the fields the walk
      steps by hold. The fields it never reads are free: the record and handshake lengths, the versions and the random
      in `head`, the declared extension length of server_name, and the list length and name type in `listHeader`. */
  ghost predicate Carries(p: seq<byte>, name: seq<byte>, rest: seq<byte>) {
    |name| < 0x1_0000 && exists h: Hello :: h.Shaped() && p == Print(h, name, rest)
  }

  /** The walk is exactly the grammar: it finds a name precisely where a ClientHello carries one. */
  lemma WalkIsGrammar(p: seq<byte>, name: seq<byte>, rest: seq<byte>)
    ensures ServerName(p) == Some((name, rest)) <==> Carries(p, name, rest)
  {
    if ServerName(p) == Some((name, rest)) {
      var h := PrintParsed(p, name, rest);
    }
    if Carries(p, name, rest) {
      var h: Hello :| h.Shaped() && p == Print(h, name, rest);
      ParsePrinted(h, name, rest);
    }
  }

  // ---------------------------------------------------------------- stability under more bytes

  lemma {:induction false} ExtensionsAppend(es: seq<Extension>, tail: seq<byte>, more: seq<byte>)
    requires AllSkipped(es)
    ensures Extensions(es, tail) + more == Extensions(es, tail + more)
  {
    if es != [] { ExtensionsAppend(es[1..], tail, more); }
  }

  lemma VectorAppend(v: seq<byte>, tail: seq<byte>, more: seq<byte>)
    ensures |v| < 0x100 ==> Vector8(v, tail) + more == Vector8(v, tail + more)
    ensures |v| < 0x1_0000 ==> Vector16(v, tail) + more == Vector16(v, tail + more)
  {
  }

  lemma ServerNameAppend(h: Hello, name: seq<byte>, rest: seq<byte>, more: seq<byte>)
    requires h.Shaped() && |name| < 0x1_0000
    ensures ServerNameExtension(h, name, rest) + more == ServerNameExtension(h, name, rest + more)
  {
    var front := h.listHeader + Be16(|name|) + name;
    assert (front + rest) + more == front + (rest + more);
  }

  /** Bytes after a printed ClientHello are bytes after its name. */
  lemma PrintAppend(h: Hello, name: seq<byte>, rest: seq<byte>, more: seq<byte>)
    requires h.Shaped() && |name| < 0x1_0000
    ensures Print(h, name, rest) + more == Print(h, name, rest + more)
  {
    var sni := ServerNameExtension(h, name, rest);
    var block := Be16(h.extensionsLength) + Extensions(h.skipped, sni);
    var compressions := Vector8(h.compressions, block);
    var ciphers := Vector16(h.ciphers, compressions);
    ServerNameAppend(h, name, rest, more);
    ExtensionsAppend(h.skipped, sni, more);
    assert block + more == Be16(h.extensionsLength) + (Extensions(h.skipped, sni) + more);
    VectorAppend(h.compressions, block, more);
    VectorAppend(h.ciphers, compressions, more);
    VectorAppend(h.session, ciphers, more);
    assert h.head + Vector8(h.session, ciphers) + more == h.head + (Vector8(h.session, ciphers) + more);
  }

  /** A name found in a prefix of the payload is found, at the same place, in every longer one. */
  lemma NameIsStable(p: seq<byte>, more: seq<byte>)
    requires ServerName(p).Some?
    ensures ServerName(p + more) == Some((ServerName(p).value.0, ServerName(p).value.1 + more))
  {
    var (name, rest) := ServerName(p).value;
    var h := PrintParsed(p, name, rest);
    PrintAppend(h, name, rest, more);
    ParsePrinted(h, name, rest + more);
  }

  /** The SNI never changes once it is found: truncating a capture loses it or keeps it, but never alters it. */
  lemma SniIsStable(p: seq<byte>, more: seq<byte>)
    requires Sni(p).Some?
    ensures Sni(p + more) == Sni(p)
  {
    NameIsStable(p, more);
  }

  // ---------------------------------------------------------------- the builder

  /** `n.to_bytes(width, "big")`; None is the OverflowError. */
  function ToBytes(n: nat, width: nat): (r: Option<seq<byte>>)
    ensures r.Some? ==> |r.value| == width
  {
    if width == 0 then (if n == 0 then Some([]) else None)
    else
      var high :- ToBytes(n / 256, width - 1);
      Some(high + [n % 256])
  }

  function Zeros(n: nat): seq<byte> {
    seq(n, _ => 0)
  }

  /** The extensions field: one server_name extension holding one host name. */
  function BuildExtensions(host: seq<byte>): Option<seq<byte>> {
    var hostLength :- ToBytes(|host|, 2);
    var serverNameList := [0x00] + hostLength + host;
    var listLength :- ToBytes(|serverNameList|, 2);
    var extensionData := listLength + serverNameList;
    var dataLength :- ToBytes(|extensionData|, 2);
    var extension := [0x00, 0x00] + dataLength + extensionData;
    var extensionLength :- ToBytes(|extension|, 2);
    Some(extensionLength + extension)
  }

  /** Version, random, empty session ID, one cipher suite, one compression method, extensions. */
  function BuildBody(extensions: seq<byte>): seq<byte> {
    [0x03, 0x03] + Zeros(32) + [0x00] + ([0x00, 0x02, 0x00, 0x2F] + [0x01, 0x00] + extensions)
  }

  /** `build_client_hello`; None when a length does not fit its field. */
  function BuildClientHello(domain: string): Option<seq<byte>> {
    var extensions :- BuildExtensions(Text.Encode(domain));
    var body := BuildBody(extensions);
    var bodyLength :- ToBytes(|body|, 3);
    var handshake := [0x01] + bodyLength + body;
    var recordLength :- ToBytes(|handshake|, 2);
    Some([0x16, 0x03, 0x01] + recordLength + handshake)
  }

  lemma ToBytes1(n: nat)
    ensures ToBytes(n, 1) == if n < 0x100 then Some([n % 256]) else None
  {
    assert ToBytes(n / 256, 0) == if n < 0x100 then Some([]) else None;
    assert [] + [n % 256] == [n % 256];
  }

  lemma ToBytes2(n: nat)
    ensures ToBytes(n, 2) == if n < 0x1_0000 then Some(Be16(n)) else None
  {
    ToBytes1(n / 256);
    assert [n / 256 % 256] + [n % 256] == [n / 256 % 256, n % 256];
  }

  lemma ToBytes3(n: nat)
    requires n < 0x100_0000
    ensures ToBytes(n, 3).Some?
  {
    ToBytes2(n / 256);
  }

  /** The extensions of a built ClientHello: one server_name, with nothing after it. */
  function BuiltExtensions(host: seq<byte>): seq<byte>
    requires |host| < 0x1_0000 - 9
  {
    Be16(9 + |host|)
    + ([0x00, 0x00] + Be16(5 + |host|) + (Be16(3 + |host|) + ([0x00] + Be16(|host|) + host)))
  }

  lemma ExtensionsShape(host: seq<byte>)
    ensures BuildExtensions(host) ==
              if |host| < 0x1_0000 - 9 then Some(BuiltExtensions(host)) else None
  {
    var n := |host|;
    ToBytes2(n); ToBytes2(3 + n); ToBytes2(5 + n); ToBytes2(9 + n);
    if n < 0x1_0000 - 9 {
      assert [0x00] + Be16(n) + host == [0x00] + (Be16(n) + host);
      assert [0x00, 0x00] + Be16(5 + n) + (Be16(3 + n) + ([0x00] + Be16(n) + host)) == BuiltExtensions(host)[2..];
    }
  }

  /** The builder succeeds exactly up to the record length limit, and this is the shape of what it builds. */
  lemma BuiltShape(domain: string)
    ensures BuildClientHello(domain).Some? <==> |Text.Encode(domain)| <= LONGEST_HOST
    ensures BuildClientHello(domain).Some? ==>
              && |BuildClientHello(domain).value| > 9
              && BuildClientHello(domain).value[0] == 0x16 && BuildClientHello(domain).value[5] == 0x01
              && BuildClientHello(domain).value[9..] == BuildBody(BuiltExtensions(Text.Encode(domain)))
  {
    var host := Text.Encode(domain);
    ExtensionsShape(host);
    if |host| < 0x1_0000 - 9 {
      var body := BuildBody(BuiltExtensions(host));
      ToBytes2(4 + |body|);
      ToBytes3(|body|);
      if |host| <= LONGEST_HOST {
        var handshake := [0x01] + ToBytes(|body|, 3).value + body;
        assert handshake[4..] == body;
        var record := [0x16, 0x03, 0x01] + Be16(|handshake|) + handshake;
        assert record[5..] == handshake && record[9..] == handshake[4..];
      }
    }
  }

  /** The fields of a built ClientHello, in front of its host name. */
  ghost function BuiltHello(hostLength: nat, headers: seq<byte>): Hello
    requires hostLength <= LONGEST_HOST
  {
    Hello(headers + ([0x03, 0x03] + Zeros(32)), [], [0x00, 0x2F], [0x00],
          9 + hostLength, [], 5 + hostLength, Be16(3 + hostLength) + [0x00])
  }

  lemma BuiltExtensionsPrinted(h: Hello, host: seq<byte>)
    requires |host| <= LONGEST_HOST && h.Shaped() && h.skipped == []
    requires h.extensionsLength == 9 + |host| && h.sniLength == 5 + |host|
    requires h.listHeader == Be16(3 + |host|) + [0x00]
    ensures Be16(h.extensionsLength) + Extensions(h.skipped, ServerNameExtension(h, host, [])) == BuiltExtensions(host)
  {
    var n := |host|;
    assert h.listHeader + Be16(n) + host + [] == Be16(3 + n) + ([0x00] + Be16(n) + host);
    assert Be16(EXTENSION_TYPE_SNI) == [0x00, 0x00];
  }

  lemma BuiltVectorsPrinted(block: seq<byte>)
    ensures Vector8([], Vector16([0x00, 0x2F], Vector8([0x00], block)))
         == [0x00] + ([0x00, 0x02, 0x00, 0x2F] + [0x01, 0x00] + block)
  {
    assert Be16(2) == [0x00, 0x02];
  }

  lemma BuiltIsPrinted(headers: seq<byte>, host: seq<byte>)
    requires |headers| == 9 && headers[0] == 0x16 && headers[5] == 0x01 && |host| <= LONGEST_HOST
    ensures BuiltHello(|host|, headers).Shaped()
    ensures headers + BuildBody(BuiltExtensions(host)) == Print(BuiltHello(|host|, headers), host, [])
  {
    var h := BuiltHello(|host|, headers);
    var version := [0x03, 0x03] + Zeros(32);
    BuiltShaped(|host|, headers);
    BuiltExtensionsPrinted(h, host);
    BuiltVectorsPrinted(BuiltExtensions(host));
    var fields := [0x00, 0x02, 0x00, 0x2F] + [0x01, 0x00] + BuiltExtensions(host);
    Regroup(version, [0x00], fields);
    Regroup(headers, version, [0x00] + fields);
  }

  lemma Regroup(a: seq<byte>, b: seq<byte>, c: seq<byte>)
    ensures (a + b) + c == a + (b + c)
  {
  }

  lemma BuiltShaped(hostLength: nat, headers: seq<byte>)
    requires |headers| == 9 && headers[0] == 0x16 && headers[5] == 0x01 && hostLength <= LONGEST_HOST
    ensures BuiltHello(hostLength, headers).Shaped()
  {
  }

  /** A built ClientHello parses to its host name, and nothing follows the name. */
  lemma BuildParses(domain: string)
    requires BuildClientHello(domain).Some?
    ensures ServerName(BuildClientHello(domain).value) == Some((Text.Encode(domain), []))
  {
    var host := Text.Encode(domain);
    var built := BuildClientHello(domain).value;
    BuiltShape(domain);
    assert built == built[..9] + BuildBody(BuiltExtensions(host));
    BuiltIsPrinted(built[..9], host);
    ParsePrinted(BuiltHello(|host|, built[..9]), host, []);
  }

  /** Extracting from a built ClientHello gives back its domain, whatever its characters. */
  lemma RoundTrip(domain: string)
    requires |Text.Encode(domain)| <= LONGEST_HOST
    ensures BuildClientHello(domain).Some?
    ensures Sni(BuildClientHello(domain).value) == NonEmpty(domain)
  {
    BuiltShape(domain);
    BuildParses(domain);
    Text.DecodeEncode(domain);
  }

  /** No proper prefix of a built ClientHello yields any name. */
  lemma TruncatedIsSilent(domain: string, k: nat)
    requires BuildClientHello(domain).Some? && k < |BuildClientHello(domain).value|
    ensures Sni(BuildClientHello(domain).value[..k]) == None
  {
    var built := BuildClientHello(domain).value;
    BuildParses(domain);
    assert built == built[..k] + built[k..];
    if ServerName(built[..k]).Some? {
      NameIsStable(built[..k], built[k..]);
    }
  }

  /** A three-byte big-endian number. */
  function U24(b: seq<byte>): nat
    requires |b| >= 3
  {
    b[0] as int * 0x1_0000 + b[1] as int * 0x100 + b[2] as int
  }

  lemma ToBytes3Value(n: nat)
    requires n < 0x100_0000
    ensures ToBytes(n, 3).Some? && U24(ToBytes(n, 3).value) == n
  {
    ToBytes2(n / 256);
    assert ToBytes(n, 3).value == Be16(n / 256) + [n % 256];
  }

  lemma HeadersOf(record: seq<byte>, handshake: seq<byte>, bodyLength: seq<byte>, body: seq<byte>)
    requires handshake == [0x01] + bodyLength + body && |bodyLength| == 3 && |handshake| < 0x1_0000
    requires record == [0x16, 0x03, 0x01] + Be16(|handshake|) + handshake && U24(bodyLength) == |body|
    ensures |record| > 8 && record[0] == 0x16 && record[1] == 0x03 && record[2] == 0x01 && record[5] == 0x01
    ensures U16(record[3..]) == |record| - 5 && U24(record[6..]) == |record| - 9
  {
    assert record[3..][..2] == Be16(|handshake|) && record[6..][..3] == bodyLength;
  }

  lemma BuiltFromBody(domain: string)
    requires BuildClientHello(domain).Some?
    ensures BuildExtensions(Text.Encode(domain)).Some?
    ensures var body := BuildBody(BuildExtensions(Text.Encode(domain)).value);
            && |body| < 0x100_0000 && ToBytes(|body|, 3).Some?
            && var handshake := [0x01] + ToBytes(|body|, 3).value + body;
            && |handshake| < 0x1_0000
            && BuildClientHello(domain).value == [0x16, 0x03, 0x01] + Be16(|handshake|) + handshake
  {
    hide BuildExtensions, BuildBody, Text.Encode;
    var body := BuildBody(BuildExtensions(Text.Encode(domain)).value);
    ToBytes2(|[0x01] + ToBytes(|body|, 3).value + body|);
  }

  /** The record and handshake headers of a built ClientHello (sections 5.1 and 4 of RFC 8446): their types and version,
      and lengths that count exactly the bytes behind them. */
  lemma BuiltHeaders(domain: string)
    requires BuildClientHello(domain).Some?
    ensures var b := BuildClientHello(domain).value;
            && |b| > 9 && b[0] == 0x16 && b[1] == 0x03 && b[2] == 0x01 && U16(b[3..]) == |b| - 5
            && b[5] == 0x01 && U24(b[6..]) == |b| - 9
  {
    hide BuildClientHello, BuildExtensions, BuildBody, Text.Encode, ToBytes;
    BuiltFromBody(domain);
    BuiltShape(domain);
    var body := BuildBody(BuildExtensions(Text.Encode(domain)).value);
    var bodyLength := ToBytes(|body|, 3).value;
    ToBytes3Value(|body|);
    HeadersOf(BuildClientHello(domain).value, [0x01] + bodyLength + body, bodyLength, body);
  }

  lemma BodyFields(extensions: seq<byte>)
    ensures var body := BuildBody(extensions);
            && body == body[..41] + extensions && body[..2] == [0x03, 0x03] && (forall i | 2 <= i < 34 :: body[i] == 0)
            && body[34] == 0 && body[35..41] == [0x00, 0x02, 0x00, 0x2F, 0x01, 0x00]
  {
  }

  lemma ExtensionsLengthField(host: seq<byte>)
    requires |host| < 0x1_0000 - 9
    ensures |BuiltExtensions(host)| == 11 + |host| && U16(BuiltExtensions(host)) == 9 + |host|
  {
    assert BuiltExtensions(host)[..2] == Be16(9 + |host|);
  }

  lemma FieldsBehindHeaders(b: seq<byte>, extensions: seq<byte>)
    requires |b| > 9 && b[9..] == BuildBody(extensions)
    ensures |b| == 50 + |extensions| && b[50..] == extensions
    ensures b[9..11] == [0x03, 0x03] && (forall i | 11 <= i < 43 :: b[i] == 0)
    ensures b[43] == 0 && b[44..50] == [0x00, 0x02, 0x00, 0x2F, 0x01, 0x00]
  {
    var body := b[9..];
    BodyFields(extensions);
    assert b[9..11] == body[..2] && b[44..50] == body[35..41] && b[50..] == body[41..];
    assert forall i | 9 <= i < |b| :: b[i] == body[i - 9];
  }

  /** The fixed fields of its body (section 4.1.2 of RFC 8446): version, random, empty session ID, one cipher suite, one
      compression method, and a length that counts exactly the extensions. */
  lemma BuiltBody(domain: string)
    requires BuildClientHello(domain).Some?
    ensures var b := BuildClientHello(domain).value;
            && |b| > 52 && b[9..11] == [0x03, 0x03] && (forall i | 11 <= i < 43 :: b[i] == 0)
            && b[43] == 0 && b[44..50] == [0x00, 0x02, 0x00, 0x2F, 0x01, 0x00] && U16(b[50..]) == |b| - 52
  {
    BuiltShape(domain);
    var b, extensions := BuildClientHello(domain).value, BuiltExtensions(Text.Encode(domain));
    BodyFields(extensions);
    ExtensionsLengthField(Text.Encode(domain));
    FieldsBehindHeaders(b, extensions);
  }
}
