/** Python's text operations as the engine uses them: UTF-8, split, join, lower, strip. */
module Text {
  import opened Base

  // ---------------------------------------------------------------- UTF-8

  function EncodeChar(c: char): (r: seq<byte>)
    ensures 1 <= |r| <= 4
  {
    var n := c as int;
    if n < 0x80 then [n]
    else if n < 0x800 then [0xC0 + n / 64, 0x80 + n % 64]
    else if n < 0x1_0000 then [0xE0 + n / 4096, 0x80 + n / 64 % 64, 0x80 + n % 64]
    else [0xF0 + n / 262144, 0x80 + n / 4096 % 64, 0x80 + n / 64 % 64, 0x80 + n % 64]
  }

  /** `str.encode()`. */
  function Encode(s: string): seq<byte> {
    if s == "" then [] else EncodeChar(s[0]) + Encode(s[1..])
  }

  predicate IsContinuation(b: byte) { 0x80 <= b < 0xC0 }

  /** The payload bits of a byte above its marker bits. */
  function Bits(b: byte, marker: int): int { b - marker }

  predicate IsScalar(n: int) { 0 <= n < 0xD800 || 0xE000 <= n < 0x11_0000 }

  /** The character whose UTF-8 form starts `b`, with its width; None when `b` starts with no well-formed one. */
  function Front(b: seq<byte>): (r: Option<(char, nat)>)
    ensures r.Some? ==> 1 <= r.value.1 <= |b|
  {
    if |b| >= 1 && b[0] < 0x80 then
      Some((b[0] as char, 1))
    else if |b| >= 2 && 0xC0 <= b[0] < 0xE0 && IsContinuation(b[1]) then
      var n := Bits(b[0], 0xC0) * 64 + Bits(b[1], 0x80);
      if n < 0x80 then None else Some((n as char, 2))
    else if |b| >= 3 && 0xE0 <= b[0] < 0xF0 && IsContinuation(b[1]) && IsContinuation(b[2]) then
      var n := Bits(b[0], 0xE0) * 4096 + Bits(b[1], 0x80) * 64 + Bits(b[2], 0x80);
      if n < 0x800 || !IsScalar(n) then None else Some((n as char, 3))
    else if |b| >= 4 && 0xF0 <= b[0] < 0xF8
            && IsContinuation(b[1]) && IsContinuation(b[2]) && IsContinuation(b[3]) then
      var n := Bits(b[0], 0xF0) * 262144 + Bits(b[1], 0x80) * 4096 + Bits(b[2], 0x80) * 64 + Bits(b[3], 0x80);
      if n < 0x1_0000 || !IsScalar(n) then None else Some((n as char, 4))
    else None
  }

  /** `bytes.decode(errors="ignore")`: a byte that starts no well-formed character is dropped. */
  function Decode(b: seq<byte>): string
    decreases |b|
  {
    if b == [] then ""
    else match Front(b)
      case Some((c, width)) => [c] + Decode(b[width..])
      case None => Decode(b[1..])
  }

  /** The bits spread over continuation bytes add up again. */
  lemma SpreadBits(n: nat)
    ensures n == n / 64 * 64 + n % 64
    ensures n / 64 == n / 4096 * 64 + n / 64 % 64
    ensures n / 4096 == n / 262144 * 64 + n / 4096 % 64
  {
    assert n / 64 / 64 == n / 4096 && n / 4096 / 64 == n / 262144;
  }

  lemma FrontOfFour(n: nat, b: seq<byte>)
    requires 0x1_0000 <= n && IsScalar(n) && |b| >= 4
    requires b[0] == 0xF0 + n / 262144 && b[1] == 0x80 + n / 4096 % 64
    requires b[2] == 0x80 + n / 64 % 64 && b[3] == 0x80 + n % 64
    ensures Front(b) == Some((n as char, 4))
  {
    SpreadBits(n);
  }

  lemma FrontOfThree(n: nat, b: seq<byte>)
    requires 0x800 <= n < 0x1_0000 && IsScalar(n) && |b| >= 3
    requires b[0] == 0xE0 + n / 4096 && b[1] == 0x80 + n / 64 % 64 && b[2] == 0x80 + n % 64
    ensures Front(b) == Some((n as char, 3))
  {
    SpreadBits(n);
  }

  /** Any bytes after an encoded character leave that character at the front. */
  lemma FrontOfEncoded(c: char, rest: seq<byte>)
    ensures Front(EncodeChar(c) + rest) == Some((c, |EncodeChar(c)|))
  {
    var n := c as int;
    var b := EncodeChar(c) + rest;
    if n < 0x80 {
    } else if n < 0x800 {
      assert b[0] == 0xC0 + n / 64 && b[1] == 0x80 + n % 64;
    } else if n < 0x1_0000 {
      FrontOfThree(n, b);
    } else {
      FrontOfFour(n, b);
    }
  }

  /** Decoding undoes encoding, for every string. */
  lemma {:induction false} DecodeEncode(s: string)
    ensures Decode(Encode(s)) == s
  {
    if s != "" {
      var rest := Encode(s[1..]);
      FrontOfEncoded(s[0], rest);
      assert (EncodeChar(s[0]) + rest)[|EncodeChar(s[0])|..] == rest;
      DecodeEncode(s[1..]);
    }
  }

  /** A character is found at the front exactly when its encoding is there. */
  lemma FrontIsExact(b: seq<byte>, c: char)
    ensures EncodeChar(c) <= b <==> Front(b) == Some((c, |EncodeChar(c)|))
  {
    if EncodeChar(c) <= b {
      var rest := b[|EncodeChar(c)|..];
      assert b == EncodeChar(c) + rest;
      FrontOfEncoded(c, rest);
    }
    if Front(b) == Some((c, |EncodeChar(c)|)) {
      FrontWasEncoded(b);
    }
  }

  lemma Halves(n: nat, high: nat, low: nat)
    requires n == high * 64 + low && low < 64
    ensures n / 64 == high && n % 64 == low
  {
  }

  lemma TwoBytes(b: seq<byte>, n: nat)
    requires |b| >= 2 && 0xC0 <= b[0] < 0xE0 && IsContinuation(b[1])
    requires n == Bits(b[0], 0xC0) * 64 + Bits(b[1], 0x80) && 0x80 <= n
    ensures n < 0x800 && EncodeChar(n as char) == b[..2]
  {
    Halves(n, Bits(b[0], 0xC0), Bits(b[1], 0x80));
  }

  lemma ThreeBytes(b: seq<byte>, n: nat)
    requires |b| >= 3 && 0xE0 <= b[0] < 0xF0 && IsContinuation(b[1]) && IsContinuation(b[2])
    requires n == Bits(b[0], 0xE0) * 4096 + Bits(b[1], 0x80) * 64 + Bits(b[2], 0x80) && 0x800 <= n && IsScalar(n)
    ensures n < 0x1_0000 && EncodeChar(n as char) == b[..3]
  {
    var high := Bits(b[0], 0xE0) * 64 + Bits(b[1], 0x80);
    Halves(n, high, Bits(b[2], 0x80));
    Halves(high, Bits(b[0], 0xE0), Bits(b[1], 0x80));
    SpreadBits(n);
  }

  lemma FourBytes(b: seq<byte>, n: nat)
    requires |b| >= 4 && 0xF0 <= b[0] < 0xF8
    requires IsContinuation(b[1]) && IsContinuation(b[2]) && IsContinuation(b[3])
    requires n == Bits(b[0], 0xF0) * 262144 + Bits(b[1], 0x80) * 4096 + Bits(b[2], 0x80) * 64 + Bits(b[3], 0x80)
    requires 0x1_0000 <= n && IsScalar(n)
    ensures EncodeChar(n as char) == b[..4]
  {
    var top := Bits(b[0], 0xF0) * 64 + Bits(b[1], 0x80);
    var high := top * 64 + Bits(b[2], 0x80);
    Halves(n, high, Bits(b[3], 0x80));
    Halves(high, top, Bits(b[2], 0x80));
    Halves(top, Bits(b[0], 0xF0), Bits(b[1], 0x80));
    SpreadBits(n);
  }

  /** What is found at the front is encoded there. */
  lemma FrontWasEncoded(b: seq<byte>)
    requires Front(b).Some?
    ensures EncodeChar(Front(b).value.0) <= b && Front(b).value.1 == |EncodeChar(Front(b).value.0)|
  {
    var n := Front(b).value.0 as int;
    if b[0] < 0x80 {
    } else if b[0] < 0xE0 {
      TwoBytes(b, n);
    } else if b[0] < 0xF0 {
      ThreeBytes(b, n);
    } else {
      FourBytes(b, n);
    }
  }

  /** Some character is encoded at the front of `b`. */
  ghost predicate StartsCharacter(b: seq<byte>) {
    exists c: char :: EncodeChar(c) <= b
  }

  /** Decoding takes every encoded character and drops, one by one, the bytes where none is encoded. */
  lemma DecodeDropsOnlyJunk(b: seq<byte>)
    requires b != []
    ensures forall c: char | EncodeChar(c) <= b :: Decode(b) == [c] + Decode(b[|EncodeChar(c)|..])
    ensures !StartsCharacter(b) ==> Decode(b) == Decode(b[1..])
  {
    forall c: char | EncodeChar(c) <= b ensures Front(b) == Some((c, |EncodeChar(c)|)) {
      FrontIsExact(b, c);
    }
    if Front(b).Some? { FrontWasEncoded(b); }
  }

  // ---------------------------------------------------------------- split and join

  /** `s.split(sep)`: cut at every leftmost, non-overlapping occurrence of `sep`. */
  function Split(s: string, sep: string): (r: seq<string>)
    requires sep != ""
    ensures |r| >= 1
    decreases |s|
  {
    if s == "" then [""]
    else if sep <= s then [""] + Split(s[|sep|..], sep)
    else
      var r := Split(s[1..], sep);
      [[s[0]] + r[0]] + r[1..]
  }

  /** `sep.join(parts)`. */
  function Join(parts: seq<string>, sep: string): string
    requires |parts| >= 1
  {
    if |parts| == 1 then parts[0] else parts[0] + sep + Join(parts[1..], sep)
  }

  /** No occurrence of `sep` can overlap another: one character, or two different ones. */
  predicate Unbordered(sep: string) {
    |sep| == 1 || (|sep| == 2 && sep[0] != sep[1])
  }

  lemma JoinPrepend(c: char, parts: seq<string>, sep: string)
    requires |parts| >= 1
    ensures Join([[c] + parts[0]] + parts[1..], sep) == [c] + Join(parts, sep)
  {
    var longer := [[c] + parts[0]] + parts[1..];
    if |parts| > 1 {
      assert longer[1..] == parts[1..];
      var tail := Join(parts[1..], sep);
      assert ([c] + parts[0]) + sep + tail == [c] + (parts[0] + sep + tail);
    }
  }

  lemma JoinCut(parts: seq<string>, sep: string)
    requires |parts| >= 1
    ensures Join([""] + parts, sep) == sep + Join(parts, sep)
  {
    assert ([""] + parts)[1..] == parts;
  }

  /** Joining undoes splitting, for every string. */
  lemma {:induction false} JoinSplit(s: string, sep: string)
    requires sep != ""
    ensures Join(Split(s, sep), sep) == s
    decreases |s|
  {
    if s == "" {
    } else if sep <= s {
      JoinSplit(s[|sep|..], sep);
      JoinCut(Split(s[|sep|..], sep), sep);
      assert s == sep + s[|sep|..];
    } else {
      JoinSplit(s[1..], sep);
      JoinPrepend(s[0], Split(s[1..], sep), sep);
      assert s == [s[0]] + s[1..];
    }
  }

  lemma {:induction false} JoinConcat(xs: seq<string>, ys: seq<string>, sep: string)
    requires |xs| >= 1 && |ys| >= 1
    ensures Join(xs + ys, sep) == Join(xs, sep) + sep + Join(ys, sep)
  {
    if |xs| == 1 {
      assert (xs + ys)[1..] == ys;
    } else {
      assert (xs + ys)[1..] == xs[1..] + ys;
      JoinConcat(xs[1..], ys, sep);
    }
  }

  /** A separator that does not start `a` does not start `a` followed by a separator either. */
  lemma NoEarlierCut(a: string, b: string, sep: string)
    requires Unbordered(sep) && a != "" && !(sep <= a)
    ensures !(sep <= a + sep + b)
  {
    var s := a + sep + b;
    assert s[0] == a[0];
    if |sep| == 2 {
      assert s[1] == if |a| == 1 then sep[0] else a[1];
    }
  }

  lemma PrependConcat(c: char, xs: seq<string>, ys: seq<string>)
    requires |xs| >= 1
    ensures [[c] + (xs + ys)[0]] + (xs + ys)[1..] == ([[c] + xs[0]] + xs[1..]) + ys
  {
    assert (xs + ys)[1..] == xs[1..] + ys;
  }

  /** Splitting around a separator splits the two sides independently. */
  lemma {:induction false} SplitConcat(a: string, b: string, sep: string)
    requires Unbordered(sep)
    ensures Split(a + sep + b, sep) == Split(a, sep) + Split(b, sep)
    decreases |a|
  {
    var s := a + sep + b;
    if a == "" {
      assert s == sep + b && s[|sep|..] == b;
    } else if sep <= a {
      assert s[|sep|..] == a[|sep|..] + sep + b;
      SplitConcat(a[|sep|..], b, sep);
      assert sep <= s;
      assert [""] + (Split(a[|sep|..], sep) + Split(b, sep)) == ([""] + Split(a[|sep|..], sep)) + Split(b, sep);
    } else {
      NoEarlierCut(a, b, sep);
      assert s[1..] == a[1..] + sep + b;
      SplitConcat(a[1..], b, sep);
      PrependConcat(a[0], Split(a[1..], sep), Split(b, sep));
    }
  }

  /** `sep` occurs nowhere in `s`. */
  ghost predicate FreeOf(s: string, sep: string) {
    forall i | 0 <= i <= |s| :: !(sep <= s[i..])
  }

  lemma {:induction false} SplitFree(s: string, sep: string)
    requires sep != "" && FreeOf(s, sep)
    ensures Split(s, sep) == [s]
  {
    if s != "" {
      assert !(sep <= s[0..]) && s[0..] == s;
      forall i | 0 <= i <= |s[1..]| ensures !(sep <= s[1..][i..]) {
        assert s[1..][i..] == s[i + 1..];
      }
      SplitFree(s[1..], sep);
      assert s == [s[0]] + s[1..];
    }
  }

  lemma FreeOfChar(s: string, c: char)
    requires c !in s
    ensures FreeOf(s, [c])
  {
    forall i | 0 <= i <= |s| ensures !([c] <= s[i..]) {
      if i < |s| { assert s[i..][0] == s[i]; }
    }
  }

  /** Splitting undoes joining when no part holds the separator. */
  lemma {:induction false} SplitJoin(parts: seq<string>, sep: string)
    requires |parts| >= 1 && Unbordered(sep)
    requires forall i | 0 <= i < |parts| :: FreeOf(parts[i], sep)
    ensures Split(Join(parts, sep), sep) == parts
  {
    SplitFree(parts[0], sep);
    if |parts| > 1 {
      SplitJoin(parts[1..], sep);
      SplitConcat(parts[0], Join(parts[1..], sep), sep);
      assert parts == [parts[0]] + parts[1..];
    } else {
      assert parts == [parts[0]];
    }
  }

  // ---------------------------------------------------------------- lower, strip, rstrip

  function LowerChar(c: char): char {
    if 'A' <= c <= 'Z' then c - 'A' + 'a' else c
  }

  /** `s.lower()`, on ASCII letters. */
  function Lower(s: string): (r: string)
    ensures |r| == |s|
    ensures forall i | 0 <= i < |s| :: r[i] == LowerChar(s[i])
  {
    seq(|s|, i requires 0 <= i < |s| => LowerChar(s[i]))
  }

  /** `str.isspace` on one character. */
  predicate IsSpace(c: char) {
    var n := c as int;
    || 0x09 <= n <= 0x0D || 0x1C <= n <= 0x20 || n == 0x85 || n == 0xA0 || n == 0x1680
    || 0x2000 <= n <= 0x200A || n == 0x2028 || n == 0x2029 || n == 0x202F || n == 0x205F || n == 0x3000
  }

  const UPPER := "ABCDEFGHIJKLMNOPQRSTUVWXYZ"
  const LOWER := "abcdefghijklmnopqrstuvwxyz"

  /** The letters A to Z become their small forms, and every other character stays. */
  lemma LowerIsAlphabetic(c: char)
    ensures forall i | 0 <= i < 26 :: LowerChar(UPPER[i]) == LOWER[i]
    ensures c !in UPPER ==> LowerChar(c) == c
  {
    if 'A' <= c <= 'Z' {
      var i := c as int - 'A' as int;
      UpperAt(i);
    }
    forall i | 0 <= i < 26 ensures LowerChar(UPPER[i]) == LOWER[i] { UpperAt(i); }
  }

  lemma UpperAt(i: nat)
    requires i < 26
    ensures UPPER[i] as int == 'A' as int + i && LOWER[i] as int == 'a' as int + i
  {
  }

  /** The white space of Unicode's `White_Space` and bidirectional classes that Python strips. */
  const WHITE_SPACE := "\t\n\U{0B}\U{0C}\r\U{1C}\U{1D}\U{1E}\U{1F} \U{85}\U{A0}\U{1680}" +
    "\U{2000}\U{2001}\U{2002}\U{2003}\U{2004}\U{2005}\U{2006}\U{2007}\U{2008}\U{2009}\U{200A}" +
    "\U{2028}\U{2029}\U{202F}\U{205F}\U{3000}"

  lemma SpaceIsListed(c: char)
    ensures IsSpace(c) <==> c in WHITE_SPACE
  {
  }

  function StripLeft(s: string): (r: string)
    ensures |r| <= |s| && (r == "" || !IsSpace(r[0]))
  {
    if s == "" || !IsSpace(s[0]) then s else StripLeft(s[1..])
  }

  function StripRight(s: string): (r: string)
    ensures r <= s
    ensures r == "" || !IsSpace(r[|r| - 1])
  {
    if s == "" || !IsSpace(s[|s| - 1]) then s else StripRight(s[..|s| - 1])
  }

  /** `s.strip()`. */
  function Strip(s: string): (r: string)
    ensures r == "" || (!IsSpace(r[0]) && !IsSpace(r[|r| - 1]))
  {
    StripRight(StripLeft(s))
  }

  /** `s.rstrip(".")`. */
  function StripDots(s: string): (r: string)
    ensures r <= s
    ensures r == "" || r[|r| - 1] != '.'
  {
    if s == "" || s[|s| - 1] != '.' then s else StripDots(s[..|s| - 1])
  }

  lemma LowerConcat(s: string, t: string)
    ensures Lower(s + t) == Lower(s) + Lower(t)
  {
  }

  lemma {:induction false} StripLeftConcat(s: string, t: string)
    requires t != "" && !IsSpace(t[0])
    ensures StripLeft(s + t) == StripLeft(s) + t
  {
    if s == "" {
      assert s + t == t;
    } else if IsSpace(s[0]) {
      assert (s + t)[1..] == s[1..] + t;
      StripLeftConcat(s[1..], t);
    } else {
      assert (s + t)[0] == s[0];
    }
  }

  lemma {:induction false} StripRightConcat(s: string, t: string)
    ensures StripRight(s + t) == if StripRight(t) != "" then s + StripRight(t) else StripRight(s)
    decreases |t|
  {
    if t == "" {
      assert s + t == s;
    } else {
      assert (s + t)[|s + t| - 1] == t[|t| - 1];
      if IsSpace(t[|t| - 1]) {
        assert (s + t)[..|s + t| - 1] == s + t[..|t| - 1];
        StripRightConcat(s, t[..|t| - 1]);
      }
    }
  }

  lemma {:induction false} StripDotsConcat(s: string, t: string)
    ensures StripDots(s + t) == if StripDots(t) != "" then s + StripDots(t) else StripDots(s)
    decreases |t|
  {
    if t == "" {
      assert s + t == s;
    } else {
      assert (s + t)[|s + t| - 1] == t[|t| - 1];
      if t[|t| - 1] == '.' {
        assert (s + t)[..|s + t| - 1] == s + t[..|t| - 1];
        StripDotsConcat(s, t[..|t| - 1]);
      }
    }
  }

  /** What `StripLeft` removes from the front; it removes something exactly when the string starts with white space. */
  lemma {:induction false} StripLeftRemoves(s: string) returns (lead: string)
    ensures s == lead + StripLeft(s)
    ensures s != "" ==> (lead != "" <==> IsSpace(s[0]))
  {
    if s == "" || !IsSpace(s[0]) {
      lead := "";
    } else {
      var more := StripLeftRemoves(s[1..]);
      lead := [s[0]] + more;
    }
  }

  lemma {:induction false} StripLeftSnoc(s: string, c: char)
    requires IsSpace(c)
    ensures StripLeft(s + [c]) == if StripLeft(s) == "" then "" else StripLeft(s) + [c]
  {
    if s == "" {
      assert [c][1..] == "" && s + [c] == [c];
    } else if IsSpace(s[0]) {
      assert (s + [c])[1..] == s[1..] + [c];
      StripLeftSnoc(s[1..], c);
    }
  }

  lemma StripRightStep(s: string)
    requires s != ""
    ensures StripRight(s) == if IsSpace(s[|s| - 1]) then StripRight(s[..|s| - 1]) else s
    ensures StripDots(s) == if s[|s| - 1] == '.' then StripDots(s[..|s| - 1]) else s
  {
  }

  lemma StripLast(t: string, c: char)
    ensures IsSpace(c) ==> StripRight(t + [c]) == StripRight(t)
    ensures c == '.' ==> StripDots(t + [c]) == StripDots(t)
  {
    StripRightStep(t + [c]);
    assert (t + [c])[..|t|] == t;
  }

  /** Nothing to strip at the right end of a string is nothing to strip there after its left end is stripped. */
  lemma StripLeftOnly(s: string)
    requires s != ""
    ensures !IsSpace(s[|s| - 1]) ==> StripRight(StripLeft(s)) == StripLeft(s)
    ensures s[|s| - 1] != '.' ==> StripDots(StripLeft(s)) == StripLeft(s)
  {
    if StripLeft(s) != "" {
      StripLeftKeepsLast(s);
      StripRightStep(StripLeft(s));
    }
  }

  /** The two ends are stripped independently of one another: white space on both. */
  lemma {:induction false} StripLeftRight(s: string)
    ensures StripLeft(StripRight(s)) == StripRight(StripLeft(s))
    decreases |s|
  {
    if s != "" {
      var init, last := s[..|s| - 1], s[|s| - 1];
      StripRightStep(s);
      if IsSpace(last) {
        assert s == init + [last];
        StripLeftRight(init);
        StripLeftSnoc(init, last);
        StripLast(StripLeft(init), last);
      } else {
        StripLeftOnly(s);
      }
    }
  }

  /** And white space on the left, dots on the right. */
  lemma {:induction false} StripLeftDots(s: string)
    ensures StripLeft(StripDots(s)) == StripDots(StripLeft(s))
    decreases |s|
  {
    if s != "" {
      var init, last := s[..|s| - 1], s[|s| - 1];
      StripRightStep(s);
      if last == '.' {
        assert s == init + [last];
        StripLeftDots(init);
        StripLeftConcat(init, [last]);
        StripLast(StripLeft(init), last);
      } else {
        StripLeftOnly(s);
      }
    }
  }

  lemma LowerKeepsSpace(c: char)
    ensures IsSpace(LowerChar(c)) == IsSpace(c)
  {
  }

  lemma {:induction false} StripLeftLower(s: string)
    ensures StripLeft(Lower(s)) == Lower(StripLeft(s))
  {
    if s != "" {
      LowerKeepsSpace(s[0]);
      if IsSpace(s[0]) {
        StripLeftLower(s[1..]);
        assert Lower(s)[1..] == Lower(s[1..]);
      }
    }
  }

  lemma LowerInit(s: string)
    requires s != ""
    ensures Lower(s)[..|s| - 1] == Lower(s[..|s| - 1])
    ensures IsSpace(Lower(s)[|s| - 1]) == IsSpace(s[|s| - 1]) && (Lower(s)[|s| - 1] == '.' <==> s[|s| - 1] == '.')
  {
    LowerKeepsSpace(s[|s| - 1]);
  }

  lemma {:induction false} StripRightLower(s: string)
    ensures StripRight(Lower(s)) == Lower(StripRight(s))
    decreases |s|
  {
    if s != "" {
      StripRightStep(s);
      StripRightStep(Lower(s));
      LowerInit(s);
      StripRightLower(s[..|s| - 1]);
    }
  }

  lemma {:induction false} StripDotsLower(s: string)
    ensures StripDots(Lower(s)) == Lower(StripDots(s))
    decreases |s|
  {
    if s != "" {
      StripRightStep(s);
      StripRightStep(Lower(s));
      LowerInit(s);
      StripDotsLower(s[..|s| - 1]);
    }
  }

  lemma StripLeftKeepsLast(s: string)
    requires StripLeft(s) != ""
    ensures s != "" && StripLeft(s)[|StripLeft(s)| - 1] == s[|s| - 1]
  {
    var lead := StripLeftRemoves(s);
  }

  predicate IsLower(s: string) {
    forall i | 0 <= i < |s| :: LowerChar(s[i]) == s[i]
  }

  lemma LowerFixed(s: string)
    ensures Lower(s) == s <==> IsLower(s)
    ensures IsLower(Lower(s))
  {
    if Lower(s) == s {
      forall i | 0 <= i < |s| ensures LowerChar(s[i]) == s[i] { assert Lower(s)[i] == s[i]; }
    }
  }

  lemma {:induction false} StripLeftKeepsLower(s: string)
    requires IsLower(s)
    ensures IsLower(StripLeft(s))
  {
    if s != "" && IsSpace(s[0]) { StripLeftKeepsLower(s[1..]); }
  }

  /** `s.endswith(suffix)`. */
  predicate EndsWith(s: string, suffix: string) {
    |suffix| <= |s| && s[|s| - |suffix|..] == suffix
  }
}
