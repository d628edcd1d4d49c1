/** What every module shares: optional values, bytes, and the list operations (filter, map, first answer, sum) with the
    laws that the proofs about runs rest on. */
module Base {

  /** A value that may be absent: a Python None, a missing dictionary key, or a raised exception. */
  datatype Option<+T> = None | Some(value: T) {
    predicate IsFailure() { None? }

    function PropagateFailure<U>(): Option<U>
      requires None?
    {
      None
    }

    function Extract(): T
      requires Some?
    {
      value
    }

    function GetOr(default: T): T {
      match this
      case Some(v) => v
      case None => default
    }
  }

  type pos = n: int | n > 0 witness 1

  /** One octet of a packet payload. */
  type byte = b: int | 0 <= b < 256

  /** Python's truth test on an optional string: present and not empty. */
  predicate Truthy(s: Option<string>) {
    s.Some? && s.value != ""
  }

  /** The elements of `s` accepted by `keep`, in order. */
  function Filter<T>(keep: T -> bool, s: seq<T>): (r: seq<T>)
    ensures |r| <= |s|
  {
    if s == [] then []
    else if keep(s[|s| - 1]) then Filter(keep, s[..|s| - 1]) + [s[|s| - 1]]
    else Filter(keep, s[..|s| - 1])
  }

  /** Filtering grows only at the end when its input does. */
  lemma FilterSnoc<T>(keep: T -> bool, s: seq<T>, x: T)
    ensures Filter(keep, s + [x]) == if keep(x) then Filter(keep, s) + [x] else Filter(keep, s)
  {
    assert (s + [x])[..|s|] == s;
  }

  lemma {:induction false} FilterConcat<T>(keep: T -> bool, s: seq<T>, t: seq<T>)
    ensures Filter(keep, s + t) == Filter(keep, s) + Filter(keep, t)
    decreases |t|
  {
    if t == [] {
      assert s + t == s;
    } else {
      var init := t[..|t| - 1];
      assert (s + t)[..|s + t| - 1] == s + init;
      FilterConcat(keep, s, init);
    }
  }

  /** Only accepted elements of the input survive. */
  lemma {:induction false} FilterMembers<T>(keep: T -> bool, s: seq<T>)
    ensures forall x :: x in Filter(keep, s) <==> x in s && keep(x)
  {
    if s != [] {
      var init, last := s[..|s| - 1], s[|s| - 1];
      assert s == init + [last];
      FilterMembers(keep, init);
    }
  }

  /** Filtering twice keeps what both tests accept. */
  lemma {:induction false} FilterAnd<T>(f: T -> bool, g: T -> bool, both: T -> bool, s: seq<T>)
    requires forall x | x in s :: both(x) == (f(x) && g(x))
    ensures Filter(g, Filter(f, s)) == Filter(both, s)
  {
    if s != [] {
      var init, last := s[..|s| - 1], s[|s| - 1];
      assert s == init + [last];
      FilterAnd(f, g, both, init);
      FilterSnoc(g, Filter(f, init), last);
    }
  }

  /** The elements of `s` that `f` selects and `p` accepts, in no order. */
  ghost function Bag<T>(p: T -> bool, f: T -> bool, s: seq<T>): multiset<T> {
    multiset(Filter(p, Filter(f, s)))
  }

  lemma BagSnoc<T>(p: T -> bool, f: T -> bool, s: seq<T>, x: T)
    ensures Bag(p, f, s + [x]) == if f(x) && p(x) then Bag(p, f, s) + multiset{x} else Bag(p, f, s)
  {
    FilterSnoc(f, s, x);
    FilterSnoc(p, Filter(f, s), x);
  }

  /** Two disjoint selections that make up a third, seen through any further test. */
  lemma {:induction false} FilterPartition<T>(p: T -> bool, f: T -> bool, g: T -> bool, h: T -> bool, s: seq<T>)
    requires forall x | x in s :: h(x) == (f(x) || g(x)) && !(f(x) && g(x))
    ensures Bag(p, h, s) == Bag(p, f, s) + Bag(p, g, s)
  {
    if s != [] {
      var init, last := s[..|s| - 1], s[|s| - 1];
      assert s == init + [last];
      FilterPartition(p, f, g, h, init);
      BagSnoc(p, f, init, last);
      BagSnoc(p, g, init, last);
      BagSnoc(p, h, init, last);
    }
  }

  /** Step `i` of a growing bag adds `more(i)`. */
  ghost predicate GrowsBy<T>(grown: nat -> multiset<T>, more: nat -> multiset<T>, i: nat) {
    grown(i + 1) == grown(i) + more(i)
  }

  /** Bags that start alike and grow alike stay alike. */
  lemma {:induction false} SameGrowth<T>(
    f: nat -> multiset<T>, g: nat -> multiset<T>, more: nat -> multiset<T>, n: nat)
    requires f(0) == g(0) && forall i: nat :: GrowsBy(f, more, i) && GrowsBy(g, more, i)
    ensures f(n) == g(n)
  {
    if n > 0 {
      SameGrowth(f, g, more, n - 1);
      assert GrowsBy(f, more, n - 1) && GrowsBy(g, more, n - 1);
    }
  }

  lemma {:induction false} FilterAll<T>(keep: T -> bool, s: seq<T>)
    requires forall x | x in s :: keep(x)
    ensures Filter(keep, s) == s
  {
    if s != [] {
      assert s == s[..|s| - 1] + [s[|s| - 1]];
      FilterAll(keep, s[..|s| - 1]);
    }
  }

  /** `f` of every element of `s`. */
  function Map<T, U>(f: T -> U, s: seq<T>): (r: seq<U>)
    ensures |r| == |s|
    ensures forall i | 0 <= i < |s| :: r[i] == f(s[i])
  {
    seq(|s|, i requires 0 <= i < |s| => f(s[i]))
  }

  lemma MapSnoc<T, U>(f: T -> U, s: seq<T>, n: nat)
    requires n < |s|
    ensures Map(f, s[..n + 1]) == Map(f, s[..n]) + [f(s[n])]
  {
  }

  /** The first answer that `f` gives on the elements of `s`. */
  function First<T, U>(f: T -> Option<U>, s: seq<T>): Option<U> {
    if s == [] then None else if f(s[0]).Some? then f(s[0]) else First(f, s[1..])
  }

  /** `f` answers `answer` on element `i` and nothing on any earlier one. */
  ghost predicate FirstAt<T, U>(f: T -> Option<U>, s: seq<T>, i: nat, answer: U) {
    i < |s| && f(s[i]) == Some(answer) && forall j | 0 <= j < i :: f(s[j]) == None
  }

  lemma {:induction false} FirstIsFirst<T, U>(f: T -> Option<U>, s: seq<T>, answer: U)
    ensures First(f, s) == Some(answer) <==> exists i: nat :: FirstAt(f, s, i, answer)
    ensures First(f, s) == None <==> forall i | 0 <= i < |s| :: f(s[i]) == None
  {
    if s != [] {
      var rest := s[1..];
      FirstIsFirst(f, rest, answer);
      if f(s[0]) == None {
        forall i: nat | FirstAt(f, rest, i, answer) ensures FirstAt(f, s, i + 1, answer) {
        }
        forall i: nat | FirstAt(f, s, i, answer) ensures i > 0 && FirstAt(f, rest, i - 1, answer) {
        }
        assert forall i | 0 <= i < |rest| :: rest[i] == s[i + 1];
      } else if f(s[0]) == Some(answer) {
        assert FirstAt(f, s, 0, answer);
      }
    }
  }

  lemma {:induction false} FirstSnoc<T, U>(f: T -> Option<U>, s: seq<T>, x: T)
    ensures First(f, s + [x]) == if First(f, s).Some? then First(f, s) else f(x)
  {
    if s != [] {
      assert (s + [x])[1..] == s[1..] + [x];
      FirstSnoc(f, s[1..], x);
    } else {
      assert s + [x] == [x];
    }
  }

  /** Elements without an answer do not matter. */
  lemma {:induction false} FirstSkips<T, U>(f: T -> Option<U>, before: seq<T>, rest: seq<T>)
    requires forall i | 0 <= i < |before| :: f(before[i]) == None
    ensures First(f, before + rest) == First(f, rest)
  {
    if before == [] {
      assert before + rest == rest;
    } else {
      assert (before + rest)[1..] == before[1..] + rest;
      FirstSkips(f, before[1..], rest);
    }
  }

  /** How many numbers below `n` pass the test. */
  ghost function CountBelow(n: nat, test: nat -> bool): (count: nat)
    ensures count <= n
  {
    if n == 0 then 0 else CountBelow(n - 1, test) + if test(n - 1) then 1 else 0
  }

  /** Counting the elements that a filter keeps is counting the positions that pass. */
  lemma {:induction false} FilterCount<T>(keep: T -> bool, s: seq<T>, test: nat -> bool)
    requires forall i: nat | i < |s| :: keep(s[i]) == test(i)
    ensures |Filter(keep, s)| == CountBelow(|s|, test)
  {
    if s != [] { FilterCount(keep, s[..|s| - 1], test); }
  }

  lemma {:induction false} CountAgrees(n: nat, f: nat -> bool, g: nat -> bool)
    requires forall i: nat | i < n :: f(i) == g(i)
    ensures CountBelow(n, f) == CountBelow(n, g)
  {
    if n > 0 { CountAgrees(n - 1, f, g); }
  }

  /** The elements of `s` at the positions below `n` that pass the test, in order. */
  ghost function PickBelow<T>(s: seq<T>, n: nat, test: nat -> bool): seq<T>
    requires n <= |s|
  {
    if n == 0 then [] else PickBelow(s, n - 1, test) + if test(n - 1) then [s[n - 1]] else []
  }

  /** The first answer among the kept elements is the first answer when the others are made silent. */
  lemma {:induction false} FirstKept<T, U>(f: T -> Option<U>, keep: T -> bool, g: T -> Option<U>, s: seq<T>)
    requires forall x | x in s :: g(x) == if keep(x) then f(x) else None
    ensures First(f, Filter(keep, s)) == First(g, s)
  {
    if s != [] {
      var init, last := s[..|s| - 1], s[|s| - 1];
      assert s == init + [last];
      FirstKept(f, keep, g, init);
      FirstSnoc(g, init, last);
      FilterSnoc(keep, init, last);
      FirstSnoc(f, Filter(keep, init), last);
    }
  }

  /** f(0) + f(1) + ... + f(n - 1). */
  function Sum(n: nat, f: nat -> int): int {
    if n == 0 then 0 else Sum(n - 1, f) + f(n - 1)
  }

  lemma {:induction false} SumEqual(n: nat, f: nat -> int, g: nat -> int)
    requires forall i: nat | i < n :: f(i) == g(i)
    ensures Sum(n, f) == Sum(n, g)
  {
    if n > 0 { SumEqual(n - 1, f, g); }
  }

  /** Two summands that differ by `delta` at one index only. */
  lemma {:induction false} SumBump(n: nat, f: nat -> int, g: nat -> int, w: nat, delta: int)
    requires w < n && g(w) == f(w) + delta
    requires forall i: nat | i < n && i != w :: f(i) == g(i)
    ensures Sum(n, g) == Sum(n, f) + delta
  {
    if w == n - 1 { SumEqual(n - 1, f, g); } else { SumBump(n - 1, f, g, w, delta); }
  }

  lemma {:induction false} SumZero(n: nat, f: nat -> int)
    requires forall i: nat | i < n :: f(i) == 0
    ensures Sum(n, f) == 0
  {
    if n > 0 { SumZero(n - 1, f); }
  }

  lemma {:induction false} SumAdd(n: nat, f: nat -> int, g: nat -> int, h: nat -> int)
    requires forall i: nat | i < n :: h(i) == f(i) + g(i)
    ensures Sum(n, h) == Sum(n, f) + Sum(n, g)
  {
    if n > 0 { SumAdd(n - 1, f, g, h); }
  }
}
