/** Shared vocabulary: optional values, the four severities, geolocation records,
    and the list operations (filter, take, distinct, count, stable sort) that the
    server and the dashboard apply to their event lists. Every left-to-right fold
    is defined on a prefix and its last element, the order in which the source's
    `forEach`/`reduce`/`filter` loops visit a list. */
module Common {

  datatype Option<T> = None | Some(value: T)

  datatype Result<T, E> = Success(value: T) | Failure(error: E)

  datatype Severity = High | Medium | Low | Info

  /** The event kinds the pipeline recognises (`event_type`). */
  datatype Kind = Alert | Http | Dns | Tls | Flow

  /** Level of a severity: info is 0, high is 3. */
  function Rank(s: Severity): (r: nat)
    ensures r <= 3
    ensures r == 0 <==> s == Info
  {
    match s
    case Info => 0
    case Low => 1
    case Medium => 2
    case High => 3
  }

  /** A port as a JSON value: a number, or the decimal text of the number `n`. An
      explicit port of a parsed URL (`URL.port`) is such a text; the two kinds name the
      same object key but are different values to `===` and to a `Set`. */
  datatype Port = NumPort(n: int) | StrPort(n: int)

  /** A geolocation record; the lookup that fills it in is external. */
  datatype Geo = Geo(lat: real, lon: real, country: string, city: string)

  /** The record returned when a lookup fails (server/index.js:604). */
  const UnknownGeo: Geo := Geo(0.0, 0.0, "Unknown", "Unknown")

  function Min(a: int, b: int): int { if a <= b then a else b }

  /** `Math.round(a / b)` for a positive divisor: the nearest integer, halves rounded up. */
  function RoundDiv(a: int, b: int): (r: int)
    requires b > 0
    ensures 2 * b * r - b <= 2 * a < 2 * b * r + b
  {
    var q := (2 * a + b) / (2 * b);
    assert 2 * a + b == 2 * b * q + (2 * a + b) % (2 * b);
    q
  }

  /** `s.filter(p)`: the order-preserving subsequence of the elements satisfying `p`. */
  function Filter<T>(s: seq<T>, p: T -> bool): (r: seq<T>)
    ensures |r| <= |s|
    ensures forall i :: 0 <= i < |r| ==> p(r[i])
    decreases |s|
  {
    if s == [] then []
    else Filter(s[..|s| - 1], p) + (if p(s[|s| - 1]) then [s[|s| - 1]] else [])
  }

  /** The filtered list holds exactly the elements of `s` that satisfy `p`. */
  lemma {:induction false} FilterMembers<T>(s: seq<T>, p: T -> bool)
    ensures forall i :: 0 <= i < |Filter(s, p)| ==> Filter(s, p)[i] in s
    ensures forall i :: 0 <= i < |s| && p(s[i]) ==> s[i] in Filter(s, p)
    decreases |s|
  {
    if s != [] {
      var init := s[..|s| - 1];
      FilterMembers(init, p);
      var f := Filter(init, p);
      var r := Filter(s, p);
      assert r == f + (if p(s[|s| - 1]) then [s[|s| - 1]] else []);
      forall i | 0 <= i < |r| ensures r[i] in s {
        if i < |f| {
          assert r[i] == f[i];
          assert f[i] in init;
        }
      }
      forall i | 0 <= i < |s| && p(s[i]) ensures s[i] in r {
        if i < |init| {
          assert s[i] == init[i];
          assert init[i] in f;
        }
      }
    }
  }

  /** `s.slice(0, n)`. */
  function Take<T>(s: seq<T>, n: nat): (r: seq<T>)
    ensures |r| == Min(n, |s|)
    ensures forall i :: 0 <= i < |r| ==> r[i] == s[i]
  {
    if n <= |s| then s[..n] else s
  }

  /** Number of occurrences of `x` in `s`. */
  function Count<T(==)>(s: seq<T>, x: T): (r: nat)
    ensures r <= |s|
    ensures r == 0 <==> x !in s
    decreases |s|
  {
    if s == [] then 0
    else Count(s[..|s| - 1], x) + (if s[|s| - 1] == x then 1 else 0)
  }

  ghost predicate NoDups<T>(s: seq<T>)
  {
    forall i, j :: 0 <= i < j < |s| ==> s[i] != s[j]
  }

  /** `[...new Set(s)]`: the distinct elements of `s` in order of first appearance. */
  function Distinct<T(==)>(s: seq<T>): (r: seq<T>)
    ensures NoDups(r)
    ensures forall i :: 0 <= i < |r| ==> r[i] in s
    ensures forall i :: 0 <= i < |s| ==> s[i] in r
    decreases |s|
  {
    if s == [] then []
    else
      var d := Distinct(s[..|s| - 1]);
      if s[|s| - 1] in d then d else d + [s[|s| - 1]]
  }

  /** The key sequence of `s` under `key`. */
  function Keys<T>(s: seq<T>, key: T -> int): (r: seq<int>)
    ensures |r| == |s|
    ensures forall i :: 0 <= i < |s| ==> r[i] == key(s[i])
  {
    seq(|s|, i requires 0 <= i < |s| => key(s[i]))
  }

  /** Non-increasing order of `key`. */
  ghost predicate SortedDesc<T>(s: seq<T>, key: T -> int)
  {
    forall i, j :: 0 <= i < j < |s| ==> key(s[i]) >= key(s[j])
  }

  /** Places `x` after every element whose key is at least `x`'s: equal keys keep
      the order in which they were inserted. */
  function InsertDesc<T>(x: T, t: seq<T>, key: T -> int): (r: seq<T>)
    ensures |r| == |t| + 1
    ensures multiset(r) == multiset(t) + multiset{x}
    ensures forall i :: 0 <= i < |r| ==> r[i] == x || r[i] in t
    decreases |t|
  {
    if t == [] then [x]
    else if key(t[0]) < key(x) then [x] + t
    else
      assert t == [t[0]] + t[1..];
      [t[0]] + InsertDesc(x, t[1..], key)
  }

  lemma {:induction false} InsertDescSorted<T>(x: T, t: seq<T>, key: T -> int)
    requires SortedDesc(t, key)
    ensures SortedDesc(InsertDesc(x, t, key), key)
    decreases |t|
  {
    if t != [] && key(t[0]) >= key(x) {
      var rest := InsertDesc(x, t[1..], key);
      InsertDescSorted(x, t[1..], key);
      forall i | 0 <= i < |rest| ensures key(t[0]) >= key(rest[i]) {
        if rest[i] != x {
          var k :| 0 <= k < |t[1..]| && t[1..][k] == rest[i];
          assert t[k + 1] == rest[i];
        }
      }
    }
  }

  /** `s.sort((a, b) => key(b) - key(a))` with the stable sort of ECMAScript 2019:
      a stable insertion sort, descending by key. */
  function SortDesc<T>(s: seq<T>, key: T -> int): (r: seq<T>)
    ensures |r| == |s|
    ensures multiset(r) == multiset(s)
    decreases |s|
  {
    if s == [] then []
    else
      assert s == s[..|s| - 1] + [s[|s| - 1]];
      InsertDesc(s[|s| - 1], SortDesc(s[..|s| - 1], key), key)
  }

  lemma {:induction false} SortDescSorted<T>(s: seq<T>, key: T -> int)
    ensures SortedDesc(SortDesc(s, key), key)
    decreases |s|
  {
    if s != [] {
      SortDescSorted(s[..|s| - 1], key);
      InsertDescSorted(s[|s| - 1], SortDesc(s[..|s| - 1], key), key);
    }
  }

  lemma {:induction false} FilterConcat<T>(a: seq<T>, b: seq<T>, p: T -> bool)
    ensures Filter(a + b, p) == Filter(a, p) + Filter(b, p)
    decreases |b|
  {
    if b != [] {
      assert (a + b)[..|a + b| - 1] == a + b[..|b| - 1];
      FilterConcat(a, b[..|b| - 1], p);
    } else {
      assert a + b == a;
    }
  }

  /** The predicate "has key `c`" as one named value, so that filters by it compare equal. */
  function KeyIs<T>(key: T -> int, c: int): T -> bool
  {
    y => key(y) == c
  }

  lemma {:induction false} FilterNone<T>(s: seq<T>, p: T -> bool)
    requires forall i :: 0 <= i < |s| ==> !p(s[i])
    ensures Filter(s, p) == []
    decreases |s|
  {
    if s != [] {
      FilterNone(s[..|s| - 1], p);
    }
  }

  lemma FilterSingle<T>(x: T, p: T -> bool)
    ensures Filter([x], p) == if p(x) then [x] else []
  {
    assert [x][..0] == [];
  }

  lemma {:induction false} InsertDescStable<T>(x: T, t: seq<T>, key: T -> int, c: int)
    requires SortedDesc(t, key)
    ensures Filter(InsertDesc(x, t, key), KeyIs(key, c))
         == Filter(t, KeyIs(key, c)) + Filter([x], KeyIs(key, c))
    decreases |t|
  {
    if t == [] {
    } else if key(t[0]) < key(x) {
      InsertFrontStable(x, t, key, c);
    } else {
      SortedTail(t, key);
      InsertDescStable(x, t[1..], key, c);
      InsertBehindStable(x, t, key, KeyIs(key, c));
    }
  }

  lemma SortedTail<T>(t: seq<T>, key: T -> int)
    requires SortedDesc(t, key) && t != []
    ensures SortedDesc(t[1..], key)
  {
    assert forall i :: 0 <= i < |t[1..]| ==> t[1..][i] == t[i + 1];
  }

  /** `x` goes in front of a list whose keys are all smaller: among the elements with
      key `c`, `x` still comes last, since no element of the list has its key. */
  lemma InsertFrontStable<T>(x: T, t: seq<T>, key: T -> int, c: int)
    requires SortedDesc(t, key) && t != [] && key(t[0]) < key(x)
    ensures Filter(InsertDesc(x, t, key), KeyIs(key, c))
         == Filter(t, KeyIs(key, c)) + Filter([x], KeyIs(key, c))
  {
    var p := KeyIs(key, c);
    assert InsertDesc(x, t, key) == [x] + t;
    FilterConcat([x], t, p);
    if key(x) == c {
      forall i | 0 <= i < |t| ensures !p(t[i]) {
        assert i == 0 || key(t[0]) >= key(t[i]);
      }
      FilterNone(t, p);
    }
    FilterSingle(x, p);
  }

  /** `x` goes behind the head: the filtered step below the head carries over. */
  lemma InsertBehindStable<T>(x: T, t: seq<T>, key: T -> int, p: T -> bool)
    requires t != [] && key(t[0]) >= key(x)
    requires Filter(InsertDesc(x, t[1..], key), p) == Filter(t[1..], p) + Filter([x], p)
    ensures Filter(InsertDesc(x, t, key), p) == Filter(t, p) + Filter([x], p)
  {
    InsertBehind(x, t, key);
    HeadTail(t);
    ConsFilterStable(t[0], t[1..], InsertDesc(x, t[1..], key), t, InsertDesc(x, t, key), Filter([x], p), p);
  }

  lemma HeadTail<T>(t: seq<T>)
    requires t != []
    ensures t == [t[0]] + t[1..]
  {
  }

  lemma InsertBehind<T>(x: T, t: seq<T>, key: T -> int)
    requires t != [] && key(t[0]) >= key(x)
    ensures InsertDesc(x, t, key) == [t[0]] + InsertDesc(x, t[1..], key)
  {
  }

  /** Putting the same element in front of both lists keeps their filters `w` apart. */
  lemma ConsFilterStable<T>(h: T, u: seq<T>, v: seq<T>, hu: seq<T>, hv: seq<T>, w: seq<T>, p: T -> bool)
    requires Filter(v, p) == Filter(u, p) + w
    requires hu == [h] + u && hv == [h] + v
    ensures Filter(hv, p) == Filter(hu, p) + w
  {
    FilterConcat([h], v, p);
    FilterConcat([h], u, p);
    AppendShift(Filter([h], p), Filter(u, p), Filter(v, p), w);
  }

  lemma AppendShift<T>(a: seq<T>, fu: seq<T>, fv: seq<T>, w: seq<T>)
    requires fv == fu + w
    ensures a + fv == (a + fu) + w
  {
  }

  /** Stability: among the elements with one key, the sorted list keeps the input order. */
  lemma {:induction false} SortDescStable<T>(s: seq<T>, key: T -> int, c: int)
    ensures Filter(SortDesc(s, key), KeyIs(key, c)) == Filter(s, KeyIs(key, c))
    decreases |s|
  {
    if s != [] {
      var last := s[|s| - 1];
      SortDescStable(s[..|s| - 1], key, c);
      SortDescSorted(s[..|s| - 1], key);
      InsertDescStable(last, SortDesc(s[..|s| - 1], key), key, c);
      FilterSingle(last, KeyIs(key, c));
    }
  }

  /** Capping a descending sort at `n` keeps the largest keys: anything left out
      was cut by the cap and has a key no larger than the last one kept. */
  lemma TopKeepsLargest<T>(s: seq<T>, key: T -> int, n: nat)
    requires n > 0
    ensures var r := Take(SortDesc(s, key), n);
      forall i :: 0 <= i < |s| && s[i] !in r ==> |r| == n && key(s[i]) <= key(r[n - 1])
  {
    var t := SortDesc(s, key);
    var r := Take(t, n);
    SortDescSorted(s, key);
    forall i | 0 <= i < |s| && s[i] !in r
      ensures |r| == n && key(s[i]) <= key(r[n - 1])
    {
      assert s[i] in multiset(t);
      var j :| 0 <= j < |t| && t[j] == s[i];
      assert j >= |r| by {
        assert forall k :: 0 <= k < |r| ==> r[k] in r;
      }
    }
  }

  /** `s.sort((a, b) => key(b) - key(a)).slice(0, n)`: a bounded, descending prefix of a
      permutation of `s` that keeps the largest keys. */
  function TopN<T>(s: seq<T>, key: T -> int, n: nat): (r: seq<T>)
    requires n > 0
    ensures |r| == Min(n, |s|)
    ensures SortedDesc(r, key)
    ensures multiset(r) <= multiset(s)
    ensures forall i :: 0 <= i < |s| && s[i] !in r ==> |r| == n && key(s[i]) <= key(r[n - 1])
  {
    SortDescSorted(s, key);
    TopKeepsLargest(s, key, n);
    TakeOfSorted(SortDesc(s, key), key, n);
    Take(SortDesc(s, key), n)
  }

  /** A prefix of a descending list is descending and draws on the list's elements. */
  lemma TakeOfSorted<T>(t: seq<T>, key: T -> int, n: nat)
    requires SortedDesc(t, key)
    ensures SortedDesc(Take(t, n), key)
    ensures multiset(Take(t, n)) <= multiset(t)
  {
    var r := Take(t, n);
    assert t == r + t[|r|..];
  }

  /** An element that occurs at most once cannot sit at two positions. */
  lemma OnceAtOnePlace<T>(r: seq<T>, i: int, j: int)
    requires 0 <= i < j < |r|
    requires multiset(r)[r[i]] <= 1
    ensures r[i] != r[j]
  {
    assert r == r[..i] + [r[i]] + r[i + 1..j] + [r[j]] + r[j + 1..];
  }

  lemma {:induction false} FilterFilter<T>(s: seq<T>, p: T -> bool, q: T -> bool, r: T -> bool)
    requires forall i :: 0 <= i < |s| ==> r(s[i]) == (p(s[i]) && q(s[i]))
    ensures Filter(Filter(s, p), q) == Filter(s, r)
    decreases |s|
  {
    if s != [] {
      var init, last := s[..|s| - 1], s[|s| - 1];
      assert forall i :: 0 <= i < |init| ==> init[i] == s[i];
      FilterFilter(init, p, q, r);
      FilterConcat(Filter(init, p), if p(last) then [last] else [], q);
      FilterSingle(last, q);
      assert Filter([], q) == [];
    }
  }

  /** Filters by predicates that agree on every element give the same result. */
  lemma {:induction false} FilterSame<T>(s: seq<T>, p: T -> bool, q: T -> bool)
    requires forall i :: 0 <= i < |s| ==> p(s[i]) == q(s[i])
    ensures Filter(s, p) == Filter(s, q)
    decreases |s|
  {
    if s != [] {
      var init := s[..|s| - 1];
      assert forall i :: 0 <= i < |init| ==> init[i] == s[i];
      FilterSame(init, p, q);
    }
  }

  /** A predicate that holds everywhere filters nothing out. */
  lemma {:induction false} FilterAll<T>(s: seq<T>, p: T -> bool)
    requires forall i :: 0 <= i < |s| ==> p(s[i])
    ensures Filter(s, p) == s
    decreases |s|
  {
    if s != [] {
      var init := s[..|s| - 1];
      assert forall i :: 0 <= i < |init| ==> init[i] == s[i];
      FilterAll(init, p);
      assert init + [s[|s| - 1]] == s;
    }
  }

  lemma {:induction false} FilterNoDups<T>(s: seq<T>, p: T -> bool)
    requires NoDups(s)
    ensures NoDups(Filter(s, p))
    decreases |s|
  {
    if s != [] {
      var init, last := s[..|s| - 1], s[|s| - 1];
      assert NoDups(init) by {
        assert forall i :: 0 <= i < |init| ==> init[i] == s[i];
      }
      FilterNoDups(init, p);
      FilterMembers(init, p);
      var f := Filter(init, p);
      if p(last) {
        forall k | 0 <= k < |f| ensures f[k] != last {
          var m :| 0 <= m < |init| && init[m] == f[k];
          assert s[m] == f[k];
        }
      }
    }
  }

  /** In a list without duplicates an element occurs at most once. */
  lemma {:induction false} NoDupsOnce<T>(s: seq<T>, x: T)
    requires NoDups(s)
    ensures multiset(s)[x] <= 1
    decreases |s|
  {
    if s != [] {
      var init, last := s[..|s| - 1], s[|s| - 1];
      assert s == init + [last];
      assert NoDups(init) by {
        assert forall i :: 0 <= i < |init| ==> init[i] == s[i];
      }
      NoDupsOnce(init, x);
      assert last !in init by {
        assert forall i :: 0 <= i < |init| ==> init[i] == s[i];
      }
    }
  }

  /** A rearrangement of a list without duplicates has none either. */
  lemma PermutedNoDups<T>(a: seq<T>, b: seq<T>)
    requires NoDups(a) && multiset(a) == multiset(b)
    ensures NoDups(b)
  {
    forall i, j | 0 <= i < j < |b| ensures b[i] != b[j] {
      NoDupsOnce(a, b[i]);
      OnceAtOnePlace(b, i, j);
    }
  }

  /** Two lists with the same elements, counted with multiplicity, have the same members. */
  lemma PermutedMembers<T>(a: seq<T>, b: seq<T>)
    requires multiset(a) == multiset(b)
    ensures forall i :: 0 <= i < |b| ==> b[i] in a
    ensures forall i :: 0 <= i < |a| ==> a[i] in b
  {
    forall i | 0 <= i < |b| ensures b[i] in a {
      assert b[i] in multiset(b);
    }
    forall i | 0 <= i < |a| ensures a[i] in b {
      assert a[i] in multiset(a);
    }
  }
}
