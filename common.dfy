/** Optional values and success/failure results, used for the source's
    nullable fields and its thrown errors. */
module Wrappers {

  datatype Option<+T> = None | Some(value: T) {
    function GetOr(default: T): T {
      match this
      case Some(v) => v
      case None => default
    }
  }

  datatype Result<+R, +E> = Success(value: R) | Failure(error: E)

  datatype Outcome<+E> = Pass | Fail(error: E)
}

/** Sequence operations behind the source's `Array.prototype.filter`,
    `find` and `map`, with the facts the rest of the model relies on. */
module Seqs {
  import opened Wrappers

  /** `s.filter(p)`: the elements of `s` satisfying `p`, in their order. */
  function Filter<T>(p: T -> bool, s: seq<T>): (r: seq<T>)
    ensures |r| <= |s|
    ensures forall i :: 0 <= i < |r| ==> r[i] in s && p(r[i])
    ensures forall i :: 0 <= i < |s| && p(s[i]) ==> s[i] in r
    ensures r == [] <==> forall i :: 0 <= i < |s| ==> !p(s[i])
    decreases |s|
  {
    if s == [] then []
    else if p(s[0]) then [s[0]] + Filter(p, s[1..])
    else Filter(p, s[1..])
  }

  /** One step of a filter: the first element is kept exactly when it
      satisfies the predicate. */
  lemma FilterLengthCons<T>(p: T -> bool, s: seq<T>)
    requires s != []
    ensures |Filter(p, s)| == (if p(s[0]) then 1 else 0) + |Filter(p, s[1..])|
  {
  }

  /** `a` is obtained from `b` by deleting elements, keeping the order. */
  predicate IsSubsequence<T(==)>(a: seq<T>, b: seq<T>)
    decreases |b|
  {
    a == [] ||
    (b != [] &&
     ((a[0] == b[0] && IsSubsequence(a[1..], b[1..])) || IsSubsequence(a, b[1..])))
  }

  lemma {:induction false} FilterIsSubsequence<T>(p: T -> bool, s: seq<T>)
    ensures IsSubsequence(Filter(p, s), s)
    decreases |s|
  {
    if s != [] {
      FilterIsSubsequence(p, s[1..]);
      if p(s[0]) {
        assert Filter(p, s)[1..] == Filter(p, s[1..]);
      }
    }
  }

  lemma {:induction false} SubsequenceReflexive<T>(s: seq<T>)
    ensures IsSubsequence(s, s)
    decreases |s|
  {
    if s != [] {
      SubsequenceReflexive(s[1..]);
    }
  }

  /** Filter keeps exactly the elements satisfying the predicate. */
  lemma FilterMembership<T>(p: T -> bool, s: seq<T>)
    ensures forall x :: x in Filter(p, s) <==> x in s && p(x)
  {
  }

  lemma {:induction false} SubsequenceTransitive<T>(a: seq<T>, b: seq<T>, c: seq<T>)
    requires IsSubsequence(a, b) && IsSubsequence(b, c)
    ensures IsSubsequence(a, c)
    decreases |c|
  {
    if a != [] {
      assert b != [] && c != [];
      if IsSubsequence(b, c[1..]) {
        SubsequenceTransitive(a, b, c[1..]);
      } else {
        assert b[0] == c[0] && IsSubsequence(b[1..], c[1..]);
        if a[0] == b[0] && IsSubsequence(a[1..], b[1..]) {
          SubsequenceTransitive(a[1..], b[1..], c[1..]);
        } else {
          SubsequenceTransitive(a, b[1..], c[1..]);
        }
      }
    }
  }

  /** Filtering twice with the same predicate is filtering once. */
  lemma {:induction false} FilterIdempotent<T>(p: T -> bool, s: seq<T>)
    ensures Filter(p, Filter(p, s)) == Filter(p, s)
    decreases |s|
  {
    if s != [] {
      FilterIdempotent(p, s[1..]);
      if p(s[0]) {
        assert ([s[0]] + Filter(p, s[1..]))[1..] == Filter(p, s[1..]);
      }
    }
  }

  /** Two filters may be applied in either order. */
  lemma {:induction false} FilterCommute<T>(p: T -> bool, q: T -> bool, s: seq<T>)
    ensures Filter(q, Filter(p, s)) == Filter(p, Filter(q, s))
    decreases |s|
  {
    if s != [] {
      FilterCommute(p, q, s[1..]);
      var rest := s[1..];
      if p(s[0]) {
        assert ([s[0]] + Filter(p, rest))[1..] == Filter(p, rest);
      }
      if q(s[0]) {
        assert ([s[0]] + Filter(q, rest))[1..] == Filter(q, rest);
      }
    }
  }

  /** A filter whose predicate holds everywhere keeps the whole sequence. */
  lemma {:induction false} FilterKeepsAll<T>(p: T -> bool, s: seq<T>)
    requires forall i :: 0 <= i < |s| ==> p(s[i])
    ensures Filter(p, s) == s
    decreases |s|
  {
    if s != [] {
      FilterKeepsAll(p, s[1..]);
    }
  }

  /** Filters with predicates that agree on every element give equal results. */
  lemma {:induction false} FilterAgreeing<T>(p: T -> bool, q: T -> bool, s: seq<T>)
    requires forall i :: 0 <= i < |s| ==> p(s[i]) == q(s[i])
    ensures Filter(p, s) == Filter(q, s)
    decreases |s|
  {
    if s != [] {
      FilterAgreeing(p, q, s[1..]);
    }
  }

  /** Position `k` holds the first element of `s` satisfying `p`. */
  predicate FirstWhere<T>(p: T -> bool, s: seq<T>, k: int) {
    0 <= k < |s| && p(s[k]) && forall j :: 0 <= j < k ==> !p(s[j])
  }

  /** Both predicates at once. */
  function Both<T>(p: T -> bool, q: T -> bool): T -> bool {
    (x: T) => p(x) && q(x)
  }

  /** Filtering by `p` and then by `q` is filtering by both. */
  lemma {:induction false} FilterCompose<T>(p: T -> bool, q: T -> bool, s: seq<T>)
    ensures Filter(q, Filter(p, s)) == Filter(Both(p, q), s)
    decreases |s|
  {
    if s != [] {
      FilterCompose(p, q, s[1..]);
      if p(s[0]) {
        assert ([s[0]] + Filter(p, s[1..]))[1..] == Filter(p, s[1..]);
      }
    }
  }

  /** Filtering by a predicate and by its negation splits the sequence:
      together the two results hold every element exactly as often. */
  lemma {:induction false} FilterPartition<T>(p: T -> bool, q: T -> bool, s: seq<T>)
    requires forall i :: 0 <= i < |s| ==> q(s[i]) == !p(s[i])
    ensures multiset(Filter(p, s)) + multiset(Filter(q, s)) == multiset(s)
    decreases |s|
  {
    if s != [] {
      FilterPartition(p, q, s[1..]);
      assert s == [s[0]] + s[1..];
    }
  }

  /** `s.find(p)`: the first element satisfying `p`, if any. */
  function Find<T>(p: T -> bool, s: seq<T>): (r: Option<T>)
    ensures r.None? <==> forall i :: 0 <= i < |s| ==> !p(s[i])
    ensures r.Some? ==> exists k :: 0 <= k < |s| && s[k] == r.value && p(s[k]) &&
                                   forall j :: 0 <= j < k ==> !p(s[j])
    ensures forall k :: FirstWhere(p, s, k) ==> r == Some(s[k])
    decreases |s|
  {
    if s == [] then None
    else if p(s[0]) then Some(s[0])
    else
      var r := Find(p, s[1..]);
      assert forall k :: FirstWhere(p, s, k) ==> FirstWhere(p, s[1..], k - 1) by {
        forall k | FirstWhere(p, s, k) ensures FirstWhere(p, s[1..], k - 1) {
          assert k != 0;
          forall j | 0 <= j < k - 1 ensures !p(s[1..][j]) {
            assert s[1..][j] == s[j + 1];
          }
        }
      }
      assert r.Some? ==> exists k :: 1 <= k < |s| && s[k] == r.value && p(s[k]) &&
                                     forall j :: 0 <= j < k ==> !p(s[j]) by {
        if r.Some? {
          var k :| 0 <= k < |s[1..]| && s[1..][k] == r.value && p(s[1..][k]) &&
                   forall j :: 0 <= j < k ==> !p(s[1..][j]);
          assert s[k + 1] == r.value;
          forall j | 0 <= j < k + 1 ensures !p(s[j]) {
            if j > 0 { assert s[j] == s[1..][j - 1]; }
          }
        }
      }
      r
  }

  /** `s.map(x => p(x) ? f(x) : x)`: rewrite the elements selected by `p`. */
  function MapWhere<T>(p: T -> bool, f: T -> T, s: seq<T>): seq<T>
    decreases |s|
  {
    if s == [] then []
    else [if p(s[0]) then f(s[0]) else s[0]] + MapWhere(p, f, s[1..])
  }

  /** MapWhere keeps length and order, rewrites exactly the selected
      elements and leaves every other element as it was. */
  lemma {:induction false} MapWherePointwise<T>(p: T -> bool, f: T -> T, s: seq<T>)
    ensures |MapWhere(p, f, s)| == |s|
    ensures forall i :: 0 <= i < |s| ==>
              MapWhere(p, f, s)[i] == if p(s[i]) then f(s[i]) else s[i]
    decreases |s|
  {
    if s != [] {
      MapWherePointwise(p, f, s[1..]);
      var r := MapWhere(p, f, s);
      forall i | 0 < i < |s|
        ensures r[i] == if p(s[i]) then f(s[i]) else s[i]
      {
        assert r[i] == MapWhere(p, f, s[1..])[i - 1];
        assert s[i] == s[1..][i - 1];
      }
    }
  }
}

/** Text helpers behind `toLowerCase`, `toUpperCase`, `includes`,
    `split` and `join`, restricted to ASCII case mapping. */
module Text {

  function Lower(c: char): char {
    if 'A' <= c <= 'Z' then (c as int + 32) as char else c
  }

  function Upper(c: char): char {
    if 'a' <= c <= 'z' then (c as int - 32) as char else c
  }

  function LowerStr(s: string): string {
    seq(|s|, i requires 0 <= i < |s| => Lower(s[i]))
  }

  function UpperStr(s: string): string {
    seq(|s|, i requires 0 <= i < |s| => Upper(s[i]))
  }

  predicate StartsWith(s: string, prefix: string) {
    |prefix| <= |s| && s[..|prefix|] == prefix
  }

  /** `hay.includes(needle)`. */
  predicate Contains(hay: string, needle: string)
    decreases |hay|
  {
    StartsWith(hay, needle) || (hay != [] && Contains(hay[1..], needle))
  }

  /** Every string includes the empty string. */
  lemma ContainsEmpty(hay: string)
    ensures Contains(hay, [])
  {
    assert StartsWith(hay, []);
  }

  /** `s.split(sep)` with a one-character separator: the maximal
      separator-free segments, empty ones included. */
  function Split(s: string, sep: char): (r: seq<string>)
    ensures |r| >= 1
    ensures forall i :: 0 <= i < |r| ==> sep !in r[i]
    decreases |s|
  {
    if s == [] then [[]]
    else if s[0] == sep then [[]] + Split(s[1..], sep)
    else
      var rest := Split(s[1..], sep);
      [[s[0]] + rest[0]] + rest[1..]
  }

  /** `parts.join(sep)`. */
  function Join(parts: seq<string>, sep: string): string
    decreases |parts|
  {
    if parts == [] then []
    else if |parts| == 1 then parts[0]
    else parts[0] + sep + Join(parts[1..], sep)
  }

  /** The first segment of a split is the longest separator-free prefix. */
  lemma {:induction false} SplitHead(s: string, sep: char)
    ensures var w := Split(s, sep)[0];
            |w| <= |s| && s[..|w|] == w && (|w| < |s| ==> s[|w|] == sep)
    decreases |s|
  {
    if s != [] && s[0] != sep {
      SplitHead(s[1..], sep);
      var w' := Split(s[1..], sep)[0];
      assert Split(s, sep)[0] == [s[0]] + w';
      assert s == [s[0]] + s[1..];
    }
  }

  lemma {:induction false} SplitWord(w: string, sep: char)
    requires sep !in w
    ensures Split(w, sep) == [w]
    decreases |w|
  {
    if w != [] {
      assert sep !in w[1..];
      SplitWord(w[1..], sep);
      assert w == [w[0]] + w[1..];
    }
  }

  lemma {:induction false} SplitAfterWord(w: string, sep: char, t: string)
    requires sep !in w
    ensures Split(w + [sep] + t, sep) == [w] + Split(t, sep)
    decreases |w|
  {
    var s := w + [sep] + t;
    if w == [] {
      assert s[1..] == t;
    } else {
      assert s[1..] == w[1..] + [sep] + t;
      assert sep !in w[1..];
      SplitAfterWord(w[1..], sep, t);
      var rest := Split(s[1..], sep);
      assert rest[0] == w[1..] && rest[1..] == Split(t, sep);
      assert s[0] == w[0] && w == [w[0]] + w[1..];
    }
  }

  /** Splitting a join of separator-free parts gives the parts back. */
  lemma {:induction false} SplitJoin(parts: seq<string>, sep: char)
    requires |parts| >= 1
    requires forall i :: 0 <= i < |parts| ==> sep !in parts[i]
    ensures Split(Join(parts, [sep]), sep) == parts
    decreases |parts|
  {
    if |parts| == 1 {
      SplitWord(parts[0], sep);
    } else {
      SplitJoin(parts[1..], sep);
      SplitAfterWord(parts[0], sep, Join(parts[1..], [sep]));
    }
  }
}
