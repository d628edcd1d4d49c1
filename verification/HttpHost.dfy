/** The Host header scan of `HTTPHostExtractor`. */
module HttpHost {
  import opened Base
  import opened Text

  const CRLF := "\r\n"
  const HEADER := "host:"

  /** The host a single header line names, if it is a Host line with a value. */
  function LineHost(line: string): Option<string> {
    if HEADER <= Lower(line) && Strip(line[5..]) != "" then Some(Strip(line[5..])) else None
  }

  /** The CRLF-delimited lines of a payload. */
  function Lines(payload: seq<byte>): seq<string> {
    Split(Decode(payload), CRLF)
  }

  /** The HTTP host of a payload. */
  function Host(payload: seq<byte>): Option<string> {
    First(LineHost, Lines(payload))
  }

  /** `HTTPHostExtractor.extract`. */
  method Extract(payload: seq<byte>) returns (host: Option<string>)
    ensures host == Host(payload)
  {
    if payload == [] {
      assert Decode(payload) == "" && Split("", CRLF) == [""] && LineHost("") == None;
      assert First(LineHost, [""]) == None;
      return None;
    }
    host := ScanLines(Split(Decode(payload), CRLF));
  }

  /** The loop of `extract` over the lines of the text. */
  method ScanLines(lines: seq<string>) returns (host: Option<string>)
    ensures host == First(LineHost, lines)
  {
    for i := 0 to |lines|
      invariant First(LineHost, lines) == First(LineHost, lines[i..])
    {
      var line := lines[i];
      assert lines[i..][1..] == lines[i + 1..];
      if HEADER <= Lower(line) {
        var value := Strip(line[5..]);
        if value != "" { return Some(value); }
      }
    }
    return None;
  }

  // ---------------------------------------------------------------- what the scan finds

  /** The line starts with `host:` in any letter case. */
  predicate IsHostLine(line: string) {
    |line| >= 5 && line[0] in "hH" && line[1] in "oO" && line[2] in "sS" && line[3] in "tT" && line[4] == ':'
  }

  /** A Host line with this value, which is not blank. */
  predicate NamesHost(line: string, host: string) {
    IsHostLine(line) && host != "" && Strip(line[5..]) == host
  }

  /** Not a Host line, or one with a blank value. */
  predicate NamesNone(line: string) {
    IsHostLine(line) ==> Strip(line[5..]) == ""
  }

  lemma SmallLetter(c: char, small: char, big: char)
    requires 'a' <= small <= 'z' && big as int == small as int - 32
    ensures LowerChar(c) == small <==> c == small || c == big
  {
  }

  lemma HeaderIsHostLine(line: string)
    ensures HEADER <= Lower(line) <==> IsHostLine(line)
  {
    if |line| >= 5 {
      SmallLetter(line[0], 'h', 'H');
      SmallLetter(line[1], 'o', 'O');
      SmallLetter(line[2], 's', 'S');
      SmallLetter(line[3], 't', 'T');
      assert HEADER <= Lower(line) <==> forall i | 0 <= i < 5 :: Lower(line)[i] == HEADER[i];
    }
  }

  /** A line names a host exactly when it is a Host line whose value is not blank. */
  lemma LineIsHostLine(line: string, host: string)
    ensures LineHost(line) == Some(host) <==> NamesHost(line, host)
    ensures LineHost(line) == None <==> NamesNone(line)
  {
    HeaderIsHostLine(line);
  }

  /** The scan answers with the first line that names a host, and is silent only when none does. */
  lemma ScanIsFirst(payload: seq<byte>, host: string)
    ensures Host(payload) == Some(host) <==>
              exists i: nat :: i < |Lines(payload)| && NamesHost(Lines(payload)[i], host)
                               && forall j | 0 <= j < i :: NamesNone(Lines(payload)[j])
    ensures Host(payload) == None <==> forall i | 0 <= i < |Lines(payload)| :: NamesNone(Lines(payload)[i])
  {
    var lines := Lines(payload);
    FirstIsFirst(LineHost, lines, host);
    forall i | 0 <= i < |lines| ensures LineHost(lines[i]) == None <==> NamesNone(lines[i]) {
      LineIsHostLine(lines[i], host);
    }
    forall i: nat | i < |lines| ensures LineHost(lines[i]) == Some(host) <==> NamesHost(lines[i], host) {
      LineIsHostLine(lines[i], host);
    }
    if Host(payload) == Some(host) {
      var i: nat :| FirstAt(LineHost, lines, i, host);
      assert NamesHost(lines[i], host);
    }
    if i: nat :| i < |lines| && NamesHost(lines[i], host) && forall j | 0 <= j < i :: NamesNone(lines[j]) {
      assert FirstAt(LineHost, lines, i, host);
    }
  }

  predicate AllLines(lines: seq<string>) {
    |lines| >= 1 && forall i | 0 <= i < |lines| :: FreeOfCrlf(lines[i])
  }

  /** No carriage return is followed by a line feed. */
  predicate FreeOfCrlf(line: string) {
    forall i | 0 <= i < |line| - 1 :: !(line[i] == '\r' && line[i + 1] == '\n')
  }

  lemma CrlfFree(line: string)
    requires FreeOfCrlf(line)
    ensures FreeOf(line, CRLF)
  {
    forall i | 0 <= i <= |line| ensures !(CRLF <= line[i..]) {
      if i < |line| - 1 { assert line[i..][0] == line[i] && line[i..][1] == line[i + 1]; }
    }
  }

  lemma LinesOfJoined(lines: seq<string>)
    requires AllLines(lines)
    ensures Lines(Encode(Join(lines, CRLF))) == lines
  {
    forall i | 0 <= i < |lines| ensures FreeOf(lines[i], CRLF) {
      CrlfFree(lines[i]);
    }
    DecodeEncode(Join(lines, CRLF));
    SplitJoin(lines, CRLF);
  }

  lemma FirstOfHostLine(before: seq<string>, hostLine: string, after: seq<string>)
    requires LineHost(hostLine).Some?
    requires forall i | 0 <= i < |before| :: LineHost(before[i]) == None
    ensures First(LineHost, before + [hostLine] + after) == LineHost(hostLine)
  {
    var rest := [hostLine] + after;
    assert before + [hostLine] + after == before + rest;
    FirstSkips(LineHost, before, rest);
    assert rest[0] == hostLine;
  }

  /** A message built from CRLF-free lines gives back the stripped value of its first Host line that is not blank. */
  lemma RoundTrip(before: seq<string>, hostLine: string, after: seq<string>)
    requires AllLines(before + [hostLine] + after)
    requires IsHostLine(hostLine) && Strip(hostLine[5..]) != ""
    requires forall i | 0 <= i < |before| :: NamesNone(before[i])
    ensures Host(Encode(Join(before + [hostLine] + after, CRLF))) == Some(Strip(hostLine[5..]))
  {
    forall i | 0 <= i < |before| ensures LineHost(before[i]) == None {
      LineIsHostLine(before[i], "");
    }
    LineIsHostLine(hostLine, Strip(hostLine[5..]));
    LinesOfJoined(before + [hostLine] + after);
    FirstOfHostLine(before, hostLine, after);
  }

  /** A message built from CRLF-free lines none of which is a Host line names no host. */
  lemma NoHostLineNoHost(lines: seq<string>)
    requires AllLines(lines) && forall i | 0 <= i < |lines| :: !IsHostLine(lines[i])
    ensures Host(Encode(Join(lines, CRLF))) == None
  {
    LinesOfJoined(lines);
    ScanIsFirst(Encode(Join(lines, CRLF)), "");
  }

  /** The usual form of the header: any letter case, any padding around the host. */
  lemma HeaderLine(name: string, value: string)
    requires |name| == 5 && IsHostLine(name) && Strip(value) != ""
    ensures LineHost(name + value) == Some(Strip(value))
  {
    assert (name + value)[5..] == value;
    LineIsHostLine(name + value, Strip(value));
  }
}
