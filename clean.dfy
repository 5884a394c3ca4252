/**
 * Cleaning of the raw bar series (src/preprocess/clean.rs): an optional stable
 * sort by timestamp, removal of consecutive bars with equal timestamps (the
 * first of each run stays) and removal of bars whose close is not positive.
 */
module PreprocessClean {

  import opened Types

  // ----- Timestamp order -----

  /**
   * The order of Rust's `String`: lexicographic, character by character, a
   * proper prefix first. Comparing UTF-8 bytes and comparing code points give
   * the same order.
   */
  predicate TsLe(a: string, b: string)
    decreases |a|
  {
    |a| == 0 || (|b| > 0 && (a[0] < b[0] || (a[0] == b[0] && TsLe(a[1..], b[1..]))))
  }

  lemma {:induction false} TsLeRefl(a: string)
    ensures TsLe(a, a)
    decreases |a|
  {
    if |a| > 0 {
      TsLeRefl(a[1..]);
    }
  }

  lemma {:induction false} TsLeTotal(a: string, b: string)
    ensures TsLe(a, b) || TsLe(b, a)
    decreases |a|
  {
    if |a| > 0 && |b| > 0 && a[0] == b[0] {
      TsLeTotal(a[1..], b[1..]);
    }
  }

  lemma {:induction false} TsLeTrans(a: string, b: string, c: string)
    requires TsLe(a, b) && TsLe(b, c)
    ensures TsLe(a, c)
    decreases |a|
  {
    if |a| > 0 && a[0] == b[0] && b[0] == c[0] {
      TsLeTrans(a[1..], b[1..], c[1..]);
    }
  }

  lemma {:induction false} TsLeAntisym(a: string, b: string)
    requires TsLe(a, b) && TsLe(b, a)
    ensures a == b
    decreases |a|
  {
    if |a| > 0 {
      TsLeAntisym(a[1..], b[1..]);
      assert a == [a[0]] + a[1..];
      assert b == [b[0]] + b[1..];
    }
  }

  /** Timestamps never decrease along `s`; with `strict`, they also never repeat. */
  predicate AscendingTs(s: seq<Bar>, strict: bool)
  {
    forall i, j :: 0 <= i < j < |s| ==> TsLe(s[i].ts, s[j].ts) && (strict ==> s[i].ts != s[j].ts)
  }

  // ----- Filtering and subsequences -----

  /** The elements of `s` that `keep` accepts, in their order (Rust's `retain`). */
  function Filter<T>(s: seq<T>, keep: T -> bool): (r: seq<T>)
    ensures |r| <= |s|
    decreases |s|
  {
    if |s| == 0 then []
    else Filter(s[..|s| - 1], keep) + (if keep(s[|s| - 1]) then [s[|s| - 1]] else [])
  }

  /** The predicate `clean_bars` retains by: a positive close (NaN does not arise over the reals). */
  predicate Plausible(b: Bar)
  {
    b.close > 0.0
  }

  /** The bars carrying timestamp `k`. */
  function HasTs(k: string): Bar -> bool
  {
    (b: Bar) => b.ts == k
  }

  lemma {:induction false} FilterConcat<T>(a: seq<T>, b: seq<T>, keep: T -> bool)
    ensures Filter(a + b, keep) == Filter(a, keep) + Filter(b, keep)
    decreases |b|
  {
    if |b| == 0 {
      assert a + b == a;
    } else {
      var c := a + b;
      assert c[..|c| - 1] == a + b[..|b| - 1];
      assert c[|c| - 1] == b[|b| - 1];
      FilterConcat(a, b[..|b| - 1], keep);
    }
  }

  lemma FilterSingle<T>(x: T, keep: T -> bool)
    ensures Filter([x], keep) == if keep(x) then [x] else []
  {
    assert [x][..0] == [];
  }

  /** Two filters can be applied in either order. */
  lemma {:induction false} FilterCommute<T>(s: seq<T>, p: T -> bool, q: T -> bool)
    ensures Filter(Filter(s, p), q) == Filter(Filter(s, q), p)
    decreases |s|
  {
    if |s| > 0 {
      var init, x := s[..|s| - 1], s[|s| - 1];
      FilterCommute(init, p, q);
      var P := if p(x) then [x] else [];
      var Q := if q(x) then [x] else [];
      FilterConcat(Filter(init, p), P, q);
      FilterConcat(Filter(init, q), Q, p);
      FilterSingle(x, p);
      FilterSingle(x, q);
      assert Filter(P, q) == Filter(Q, p) by {
        if p(x) && q(x) {
        } else {
          assert Filter(P, q) == [] && Filter(Q, p) == [];
        }
      }
    }
  }

  lemma {:induction false} FilterHas<T>(s: seq<T>, keep: T -> bool, x: T)
    requires x in s && keep(x)
    ensures x in Filter(s, keep)
    decreases |s|
  {
    if s[|s| - 1] != x {
      assert x in s[..|s| - 1] by {
        var i :| 0 <= i < |s| && s[i] == x;
        assert s[..|s| - 1][i] == x;
      }
      FilterHas(s[..|s| - 1], keep, x);
    }
  }

  /** Only accepted elements of `s` pass the filter. */
  lemma {:induction false} FilterMembers<T>(s: seq<T>, keep: T -> bool)
    ensures forall x :: x in Filter(s, keep) ==> x in s && keep(x)
    decreases |s|
  {
    if |s| > 0 {
      var init := s[..|s| - 1];
      FilterMembers(init, keep);
      assert s == init + [s[|s| - 1]];
    }
  }

  /** `a` is `b` with some elements left out, the rest in their order. */
  predicate IsSubseq<T(==)>(a: seq<T>, b: seq<T>)
    decreases |b|
  {
    || |a| == 0
    || (&& |b| > 0
        && (|| (a[|a| - 1] == b[|b| - 1] && IsSubseq(a[..|a| - 1], b[..|b| - 1]))
            || IsSubseq(a, b[..|b| - 1])))
  }

  lemma {:induction false} SubseqRefl<T>(a: seq<T>)
    ensures IsSubseq(a, a)
    decreases |a|
  {
    if |a| > 0 {
      SubseqRefl(a[..|a| - 1]);
    }
  }

  lemma {:induction false} SubseqTrans<T>(a: seq<T>, b: seq<T>, c: seq<T>)
    requires IsSubseq(a, b) && IsSubseq(b, c)
    ensures IsSubseq(a, c)
    decreases |c|
  {
    if |a| > 0 {
      var c' := c[..|c| - 1];
      if IsSubseq(b, c') {
        SubseqTrans(a, b, c');
      } else {
        var b' := b[..|b| - 1];
        if a[|a| - 1] == b[|b| - 1] && IsSubseq(a[..|a| - 1], b') {
          SubseqTrans(a[..|a| - 1], b', c');
        } else {
          SubseqTrans(a, b', c');
        }
      }
    }
  }

  lemma {:induction false} SubseqMembers<T>(a: seq<T>, b: seq<T>)
    requires IsSubseq(a, b)
    ensures forall x :: x in a ==> x in b
    decreases |b|
  {
    if |a| > 0 {
      var b' := b[..|b| - 1];
      if a[|a| - 1] == b[|b| - 1] && IsSubseq(a[..|a| - 1], b') {
        SubseqMembers(a[..|a| - 1], b');
        assert a == a[..|a| - 1] + [b[|b| - 1]];
        assert b == b' + [b[|b| - 1]];
      } else {
        SubseqMembers(a, b');
        assert b == b' + [b[|b| - 1]];
      }
    }
  }

  /** Leaving elements out keeps a (strictly) ascending order. */
  lemma {:induction false} SubseqKeepsAscending(a: seq<Bar>, b: seq<Bar>, strict: bool)
    requires IsSubseq(a, b) && AscendingTs(b, strict)
    ensures AscendingTs(a, strict)
    decreases |b|
  {
    if |a| > 0 {
      var a', b' := a[..|a| - 1], b[..|b| - 1];
      assert AscendingTs(b', strict) by {
        forall i, j | 0 <= i < j < |b'|
          ensures TsLe(b'[i].ts, b'[j].ts) && (strict ==> b'[i].ts != b'[j].ts)
        {
          assert b'[i] == b[i] && b'[j] == b[j];
        }
      }
      if a[|a| - 1] == b[|b| - 1] && IsSubseq(a', b') {
        SubseqKeepsAscending(a', b', strict);
        SubseqMembers(a', b');
        forall i, j | 0 <= i < j < |a| ensures TsLe(a[i].ts, a[j].ts) && (strict ==> a[i].ts != a[j].ts) {
          if j < |a| - 1 {
            assert a[i] == a'[i] && a[j] == a'[j];
          } else {
            assert a[i] in b' by {
              assert a[i] == a'[i];
            }
            var m :| 0 <= m < |b'| && b'[m] == a[i];
            assert b[m] == a[i];
          }
        }
      } else {
        SubseqKeepsAscending(a, b', strict);
      }
    }
  }

  lemma {:induction false} FilterSubseq<T>(s: seq<T>, keep: T -> bool)
    ensures IsSubseq(Filter(s, keep), s)
    decreases |s|
  {
    if |s| > 0 {
      var init, x := s[..|s| - 1], s[|s| - 1];
      FilterSubseq(init, keep);
      var f := Filter(s, keep);
      if keep(x) {
        assert f[..|f| - 1] == Filter(init, keep);
      } else {
        assert f == Filter(init, keep);
      }
    }
  }

  // ----- The stable sort -----

  /** Puts `x` in front of the first element that `le` does not place below it. */
  function InsertBy<T>(x: T, t: seq<T>, le: (T, T) -> bool): (r: seq<T>)
    ensures |r| == |t| + 1
  {
    if |t| == 0 || le(x, t[0]) then [x] + t
    else [t[0]] + InsertBy(x, t[1..], le)
  }

  /**
   * A stable sort by the comparison `le` (`le(a, b)` means that `a` need not
   * come after `b`): elements are inserted from the back, each in front of
   * the ones it may precede, so equal elements keep their input order.
   */
  function SortBy<T>(s: seq<T>, le: (T, T) -> bool): (r: seq<T>)
    ensures |r| == |s|
  {
    if |s| == 0 then [] else InsertBy(s[0], SortBy(s[1..], le), le)
  }

  /** The comparison `a.ts.cmp(&b.ts)` of `clean_bars`, as "not Greater". */
  predicate TsOrder(a: Bar, b: Bar)
  {
    TsLe(a.ts, b.ts)
  }

  /** The sort `clean_bars` applies. */
  function SortByTs(s: seq<Bar>): seq<Bar>
  {
    SortBy(s, TsOrder)
  }

  lemma {:induction false} InsertPermutes<T>(x: T, t: seq<T>, le: (T, T) -> bool)
    ensures multiset(InsertBy(x, t, le)) == multiset(t) + multiset{x}
    decreases |t|
  {
    if |t| > 0 && !le(x, t[0]) {
      InsertPermutes(x, t[1..], le);
      assert t == [t[0]] + t[1..];
    }
  }

  /** The sort only permutes its input. */
  lemma {:induction false} SortPermutes<T>(s: seq<T>, le: (T, T) -> bool)
    ensures multiset(SortBy(s, le)) == multiset(s)
    decreases |s|
  {
    if |s| > 0 {
      SortPermutes(s[1..], le);
      InsertPermutes(s[0], SortBy(s[1..], le), le);
      assert s == [s[0]] + s[1..];
    }
  }

  lemma {:induction false} InsertKeepsAscending(x: Bar, t: seq<Bar>)
    requires AscendingTs(t, false)
    ensures AscendingTs(InsertBy(x, t, TsOrder), false)
    decreases |t|
  {
    var r := InsertBy(x, t, TsOrder);
    if |t| == 0 || TsLe(x.ts, t[0].ts) {
      forall i, j | 0 <= i < j < |r| ensures TsLe(r[i].ts, r[j].ts) {
        if i == 0 && j > 1 {
          TsLeTrans(x.ts, t[0].ts, t[j - 1].ts);
        }
      }
    } else {
      var rest := InsertBy(x, t[1..], TsOrder);
      InsertKeepsAscending(x, t[1..]);
      TsLeTotal(x.ts, t[0].ts);
      InsertLowerBound(x, t[1..], t[0].ts);
      forall i, j | 0 <= i < j < |r| ensures TsLe(r[i].ts, r[j].ts) {
        if i == 0 {
          assert r[j] == rest[j - 1];
        } else {
          assert r[i] == rest[i - 1] && r[j] == rest[j - 1];
        }
      }
    }
  }

  /** A timestamp at or below `x` and every element of `t` is at or below every element of the insertion. */
  lemma {:induction false} InsertLowerBound(x: Bar, t: seq<Bar>, lo: string)
    requires TsLe(lo, x.ts)
    requires forall i :: 0 <= i < |t| ==> TsLe(lo, t[i].ts)
    ensures forall i :: 0 <= i < |InsertBy(x, t, TsOrder)| ==> TsLe(lo, InsertBy(x, t, TsOrder)[i].ts)
    decreases |t|
  {
    if |t| > 0 && !TsLe(x.ts, t[0].ts) {
      InsertLowerBound(x, t[1..], lo);
      var r, rest := InsertBy(x, t, TsOrder), InsertBy(x, t[1..], TsOrder);
      forall i | 0 <= i < |r| ensures TsLe(lo, r[i].ts) {
        if i > 0 {
          assert r[i] == rest[i - 1];
        }
      }
    }
  }

  /** The sort's output is ascending by timestamp. */
  lemma {:induction false} SortByTsAscending(s: seq<Bar>)
    ensures AscendingTs(SortByTs(s), false)
    decreases |s|
  {
    if |s| > 0 {
      SortByTsAscending(s[1..]);
      InsertKeepsAscending(s[0], SortByTs(s[1..]));
    }
  }

  lemma {:induction false} InsertStable(x: Bar, t: seq<Bar>, k: string)
    ensures Filter(InsertBy(x, t, TsOrder), HasTs(k)) == Filter([x] + t, HasTs(k))
    decreases |t|
  {
    if |t| > 0 && !TsLe(x.ts, t[0].ts) {
      var p := HasTs(k);
      var y, rest := t[0], t[1..];
      InsertStable(x, rest, k);
      TsLeRefl(x.ts);
      FilterSingle(x, p);
      FilterSingle(y, p);
      var fx, fy := Filter([x], p), Filter([y], p);
      assert fx == [] || fy == [] by {
        assert x.ts != y.ts;
      }
      calc {
        Filter(InsertBy(x, t, TsOrder), p);
        Filter([y] + InsertBy(x, rest, TsOrder), p);
        { FilterConcat([y], InsertBy(x, rest, TsOrder), p); }
        fy + Filter(InsertBy(x, rest, TsOrder), p);
        fy + Filter([x] + rest, p);
        { FilterConcat([x], rest, p); }
        fy + (fx + Filter(rest, p));
        { SwapPastEmpty(fx, fy, Filter(rest, p)); }
        fx + (fy + Filter(rest, p));
        { FilterConcat([y], rest, p); assert [y] + rest == t; }
        fx + Filter(t, p);
        { FilterConcat([x], t, p); }
        Filter([x] + t, p);
      }
    }
  }

  /** Two pieces of which one is empty can be swapped in front of a common tail. */
  lemma SwapPastEmpty<T>(a: seq<T>, b: seq<T>, r: seq<T>)
    requires a == [] || b == []
    ensures b + (a + r) == a + (b + r)
  {
    if a == [] {
      assert a + r == r;
    } else {
      assert b + (a + r) == a + r;
    }
  }

  /** Stability: the bars of any one timestamp come out in their input order. */
  lemma {:induction false} SortByTsStable(s: seq<Bar>, k: string)
    ensures Filter(SortByTs(s), HasTs(k)) == Filter(s, HasTs(k))
    decreases |s|
  {
    if |s| > 0 {
      SortByTsStable(s[1..], k);
      InsertStable(s[0], SortByTs(s[1..]), k);
      FilterConcat([s[0]], SortByTs(s[1..]), HasTs(k));
      FilterConcat([s[0]], s[1..], HasTs(k));
      assert s == [s[0]] + s[1..];
    }
  }

  // ----- Removal of consecutive duplicates -----

  /**
   * What `dedup_by(same_bucket)` keeps: each element is compared with the
   * last element kept so far and dropped when `same_bucket(element, kept)`.
   */
  function DedupBy<T>(s: seq<T>, same: (T, T) -> bool): (r: seq<T>)
    ensures |r| <= |s|
    ensures |s| > 0 ==> |r| > 0
    decreases |s|
  {
    if |s| == 0 then []
    else
      var d := DedupBy(s[..|s| - 1], same);
      if |d| > 0 && same(s[|s| - 1], d[|d| - 1]) then d else d + [s[|s| - 1]]
  }

  /** The closure `clean_bars` deduplicates with. */
  predicate SameTs(a: Bar, b: Bar)
  {
    a.ts == b.ts
  }

  /**
   * Removal of neighbouring duplicate timestamps, stated on the input alone:
   * a bar stays when it is the first one or its timestamp differs from the
   * bar right before it.
   */
  function Dedup(s: seq<Bar>): (r: seq<Bar>)
    ensures |r| <= |s|
    ensures |s| > 0 ==> |r| > 0 && r[|r| - 1].ts == s[|s| - 1].ts
    decreases |s|
  {
    if |s| <= 1 then s
    else Dedup(s[..|s| - 1]) + (if s[|s| - 1].ts == s[|s| - 2].ts then [] else [s[|s| - 1]])
  }

  /**
   * Because equal timestamps are an equivalence, comparing with the last bar
   * kept, as `dedup_by` does, is the same as comparing with the previous bar.
   */
  lemma {:induction false} DedupBySameTsIsDedup(s: seq<Bar>)
    ensures DedupBy(s, SameTs) == Dedup(s)
    decreases |s|
  {
    if |s| > 1 {
      DedupBySameTsIsDedup(s[..|s| - 1]);
    } else if |s| == 1 {
      assert s[..0] == [];
    }
  }

  lemma {:induction false} DedupSubseq(s: seq<Bar>)
    ensures IsSubseq(Dedup(s), s)
    decreases |s|
  {
    if |s| <= 1 {
      SubseqRefl(s);
    } else {
      var init := s[..|s| - 1];
      DedupSubseq(init);
      var d := Dedup(s);
      if s[|s| - 1].ts != s[|s| - 2].ts {
        assert d == Dedup(init) + [s[|s| - 1]];
        assert d[..|d| - 1] == Dedup(init) && d[|d| - 1] == s[|s| - 1];
      } else {
        assert d == Dedup(init);
      }
    }
  }

  /** No two neighbours of the output share a timestamp. */
  lemma {:induction false} DedupNoAdjacentDuplicates(s: seq<Bar>)
    ensures forall i :: 0 < i < |Dedup(s)| ==> Dedup(s)[i - 1].ts != Dedup(s)[i].ts
    decreases |s|
  {
    if |s| > 1 {
      var init := s[..|s| - 1];
      DedupNoAdjacentDuplicates(init);
      var d, d' := Dedup(s), Dedup(init);
      forall i | 0 < i < |d| ensures d[i - 1].ts != d[i].ts {
        if i < |d'| {
          assert d[i - 1] == d'[i - 1] && d[i] == d'[i];
        }
      }
    }
  }

  /** A series without neighbouring duplicates is left as it is; so deduplicating twice changes nothing. */
  lemma {:induction false} DedupKeepsDistinctNeighbours(s: seq<Bar>)
    requires forall i :: 0 < i < |s| ==> s[i - 1].ts != s[i].ts
    ensures Dedup(s) == s
    decreases |s|
  {
    if |s| > 1 {
      var init := s[..|s| - 1];
      DedupKeepsDistinctNeighbours(init);
      assert s == init + [s[|s| - 1]];
    }
  }

  lemma DedupIdempotent(s: seq<Bar>)
    ensures Dedup(Dedup(s)) == Dedup(s)
  {
    DedupNoAdjacentDuplicates(s);
    DedupKeepsDistinctNeighbours(Dedup(s));
  }

  /** On an ascending series, deduplication leaves the timestamps strictly ascending. */
  lemma {:induction false} DedupAscendingStrict(t: seq<Bar>)
    requires AscendingTs(t, false)
    ensures AscendingTs(Dedup(t), true)
    decreases |t|
  {
    if |t| > 1 {
      var p, x := t[..|t| - 1], t[|t| - 1];
      AscendingPrefix(t);
      DedupAscendingStrict(p);
      var d, d' := Dedup(t), Dedup(p);
      if x.ts != p[|p| - 1].ts {
        DedupSubseq(p);
        SubseqMembers(d', p);
        assert d == d' + [x];
        forall i, j | 0 <= i < j < |d| ensures TsLe(d[i].ts, d[j].ts) && d[i].ts != d[j].ts {
          if j < |d'| {
            assert d[i] == d'[i] && d[j] == d'[j];
          } else {
            assert d[j] == x;
            assert d[i] in p by {
              assert d[i] == d'[i];
            }
            var m :| 0 <= m < |p| && p[m] == d[i];
            assert t[m] == d[i];
            if d[i].ts == x.ts {
              TsLeRefl(x.ts);
              assert TsLe(p[m].ts, p[|p| - 1].ts) by {
                if m < |p| - 1 {
                  assert t[|p| - 1] == p[|p| - 1];
                }
              }
              TsLeAntisym(x.ts, p[|p| - 1].ts);
            }
          }
        }
      }
    }
  }

  lemma AscendingPrefix(t: seq<Bar>)
    requires |t| > 0 && AscendingTs(t, false)
    ensures AscendingTs(t[..|t| - 1], false)
  {
    var p := t[..|t| - 1];
    forall i, j | 0 <= i < j < |p| ensures TsLe(p[i].ts, p[j].ts) {
      assert p[i] == t[i] && p[j] == t[j];
    }
  }

  /** Every timestamp of an ascending series is at most its last one. */
  lemma AscendingLastBound(t: seq<Bar>, m: nat)
    requires m < |t| && AscendingTs(t, false)
    ensures TsLe(t[m].ts, t[|t| - 1].ts)
  {
    if m == |t| - 1 {
      TsLeRefl(t[m].ts);
    }
  }

  /**
   * In an ascending series whose last bar starts a new timestamp, no earlier
   * bar carries that timestamp.
   */
  lemma NewTsHasNoEarlierBar(t: seq<Bar>)
    requires |t| > 1 && AscendingTs(t, false)
    requires t[|t| - 1].ts != t[|t| - 2].ts
    ensures Filter(t[..|t| - 1], HasTs(t[|t| - 1].ts)) == []
  {
    var p, x := t[..|t| - 1], t[|t| - 1];
    var gp := Filter(p, HasTs(x.ts));
    if |gp| > 0 {
      FilterMembers(p, HasTs(x.ts));
      assert gp[0] in gp;
      var m :| 0 <= m < |p| && p[m] == gp[0];
      AscendingPrefix(t);
      AscendingLastBound(p, m);
      assert TsLe(p[|p| - 1].ts, x.ts) by {
        assert t[|p| - 1] == p[|p| - 1];
      }
      TsLeAntisym(x.ts, p[|p| - 1].ts);
    }
  }

  /**
   * On an ascending series, deduplication keeps, of the bars with timestamp
   * `k`, exactly the first one.
   */
  lemma {:induction false} DedupAscendingGroup(t: seq<Bar>, k: string)
    requires AscendingTs(t, false)
    ensures var g := Filter(t, HasTs(k));
            Filter(Dedup(t), HasTs(k)) == if |g| > 0 then [g[0]] else []
    decreases |t|
  {
    var h := HasTs(k);
    if |t| == 1 {
      FilterSingle(t[0], h);
    } else if |t| > 1 {
      var p, x := t[..|t| - 1], t[|t| - 1];
      AscendingPrefix(t);
      DedupAscendingGroup(p, k);
      var e := if x.ts == p[|p| - 1].ts then [] else [x];
      assert Dedup(t) == Dedup(p) + e;
      FilterConcat(Dedup(p), e, h);
      if x.ts != k {
        assert Filter(e, h) == [] by {
          if e == [x] {
            FilterSingle(x, h);
          }
        }
        assert Filter(t, h) == Filter(p, h);
      } else if e == [] {
        assert p[|p| - 1] in p;
        FilterHas(p, h, p[|p| - 1]);
        assert Filter(t, h) == Filter(p, h) + [x];
      } else {
        FilterSingle(x, h);
        NewTsHasNoEarlierBar(t);
        assert Filter(t, h) == Filter(p, h) + [x];
      }
    }
  }

  // ----- The cleaning pipeline -----

  /** What `clean_bars(bars, sort)` returns. */
  function Clean(bars: seq<Bar>, sort: bool): seq<Bar>
  {
    Filter(DedupBy(if sort then SortByTs(bars) else bars, SameTs), Plausible)
  }

  /** The same, with deduplication stated on the input alone. */
  lemma CleanByDedup(bars: seq<Bar>, sort: bool)
    ensures Clean(bars, sort) == Filter(Dedup(if sort then SortByTs(bars) else bars), Plausible)
  {
    DedupBySameTsIsDedup(if sort then SortByTs(bars) else bars);
  }

  /** Every bar that survives cleaning has a positive close. */
  lemma CleanClosesPositive(bars: seq<Bar>, sort: bool)
    ensures forall b :: b in Clean(bars, sort) ==> b.close > 0.0
  {
    CleanByDedup(bars, sort);
    FilterMembers(Dedup(if sort then SortByTs(bars) else bars), Plausible);
  }

  /**
   * No bar is created or altered: the output is a subsequence of the input,
   * sorted first when requested, and the sort only permutes the input.
   */
  lemma CleanIsSubsequence(bars: seq<Bar>, sort: bool)
    ensures IsSubseq(Clean(bars, sort), if sort then SortByTs(bars) else bars)
    ensures multiset(SortByTs(bars)) == multiset(bars)
    ensures forall b :: b in Clean(bars, sort) ==> b in bars
  {
    CleanByDedup(bars, sort);
    var ordered := if sort then SortByTs(bars) else bars;
    var d := Dedup(ordered);
    FilterSubseq(d, Plausible);
    DedupSubseq(ordered);
    SubseqTrans(Clean(bars, sort), d, ordered);
    SubseqMembers(Clean(bars, sort), ordered);
    SortPermutes(bars, TsOrder);
    forall b | b in ordered ensures b in bars {
      assert b in multiset(ordered);
    }
  }

  /** Sorted cleaning yields strictly ascending, hence distinct, timestamps. */
  lemma CleanSortedStrictlyAscending(bars: seq<Bar>)
    ensures AscendingTs(Clean(bars, true), true)
    ensures var c := Clean(bars, true);
            forall i, j :: 0 <= i < j < |c| ==> c[i].ts != c[j].ts
  {
    CleanByDedup(bars, true);
    var t := SortByTs(bars);
    SortByTsAscending(bars);
    DedupAscendingStrict(t);
    FilterSubseq(Dedup(t), Plausible);
    SubseqKeepsAscending(Clean(bars, true), Dedup(t), true);
  }

  /**
   * Sorted cleaning keeps, for each timestamp, the earliest bar of the input
   * with that timestamp, and only if its close is positive: when the earliest
   * one is implausible the timestamp is gone, however valid its later
   * duplicates are.
   */
  lemma CleanSortedKeepsEarliest(bars: seq<Bar>, k: string)
    ensures var g := Filter(bars, HasTs(k));
            Filter(Clean(bars, true), HasTs(k)) == if |g| > 0 && g[0].close > 0.0 then [g[0]] else []
  {
    CleanByDedup(bars, true);
    var h := HasTs(k);
    var t := SortByTs(bars);
    var g := Filter(bars, h);
    SortByTsAscending(bars);
    SortByTsStable(bars, k);
    DedupAscendingGroup(t, k);
    FilterCommute(Dedup(t), Plausible, h);
    if |g| > 0 {
      FilterSingle(g[0], Plausible);
    }
  }

  /** Unsorted cleaning removes only neighbouring duplicates and keeps the input order. */
  lemma CleanUnsortedKeepsOrder(bars: seq<Bar>)
    ensures IsSubseq(Clean(bars, false), bars)
    ensures Clean(bars, false) == Filter(Dedup(bars), Plausible)
    ensures var d := Dedup(bars);
            IsSubseq(d, bars) && forall i :: 0 < i < |d| ==> d[i - 1].ts != d[i].ts
  {
    CleanByDedup(bars, false);
    CleanIsSubsequence(bars, false);
    DedupSubseq(bars);
    DedupNoAdjacentDuplicates(bars);
  }

  /** An earliest duplicate with a zero close hides a later valid one. */
  lemma CleanEarliestInvalidHidesLater(a: Bar, b: Bar)
    requires a.ts == "1" && a.close == 0.0
    requires b.ts == "1" && b.close == 5.0
    ensures Clean([a, b], true) == []
  {
    CleanByDedup([a, b], true);
    TsLeRefl("1");
    assert SortByTs([b]) == [b];
    assert [a, b][1..] == [b];
    assert SortByTs([a, b]) == [a, b];
    assert Dedup([a, b]) == [a];
    FilterSingle(a, Plausible);
  }

  /** A valid earliest duplicate is the one kept. */
  lemma CleanEarliestValidKept(a: Bar, b: Bar)
    requires a.ts == "1" && a.close == 0.0
    requires b.ts == "1" && b.close == 5.0
    ensures Clean([b, a], true) == [b]
  {
    CleanByDedup([b, a], true);
    TsLeRefl("1");
    assert SortByTs([a]) == [a];
    assert [b, a][1..] == [a];
    assert SortByTs([b, a]) == [b, a];
    assert Dedup([b, a]) == [b];
    FilterSingle(b, Plausible);
  }

  /** Without sorting, duplicates that are not neighbours both stay. */
  lemma CleanUnsortedKeepsDistantDuplicates(b: Bar, c: Bar)
    requires b.ts == "1" && b.close == 5.0
    requires c.ts == "2" && c.close == 5.0
    ensures Clean([b, c, b], false) == [b, c, b]
  {
    CleanByDedup([b, c, b], false);
    assert [b, c, b][..2] == [b, c];
    assert [b, c][..1] == [b];
    assert Dedup([b, c]) == [b, c];
    assert Dedup([b, c, b]) == [b, c, b];
    FilterSingle(b, Plausible);
    FilterSingle(c, Plausible);
    FilterConcat([b], [c], Plausible);
    FilterConcat([b, c], [b], Plausible);
  }

  // ----- The in-place operations on the cleaned vector -----

  /**
   * Cleans `bars` as the source does with its vector: a stable sort in place
   * when requested, then the removal of neighbouring duplicates, then of the
   * implausible bars.
   */
  method CleanBars(bars: seq<Bar>, sort: bool) returns (cleaned: seq<Bar>)
    ensures cleaned == Clean(bars, sort)
  {
    var a := new Bar[|bars|](i requires 0 <= i < |bars| => bars[i]);
    assert a[..] == bars;
    if sort {
      SortInPlace(a, TsOrder);
    }
    cleaned := a[..];
    cleaned := DedupInPlace(cleaned, SameTs);
    cleaned := RetainPlausible(cleaned);
  }

  /** Sorts `a` stably by `le`, inserting each element into the sorted tail behind it. */
  method SortInPlace<T>(a: array<T>, le: (T, T) -> bool)
    modifies a
    ensures a[..] == SortBy(old(a[..]), le)
  {
    ghost var s := a[..];
    var i := a.Length;
    while i > 0
      invariant 0 <= i <= a.Length
      invariant a[..i] == s[..i]
      invariant a[i..] == SortBy(s[i..], le)
    {
      i := i - 1;
      assert s[i..][1..] == s[i + 1..];
      assert a[i] == s[i];
      InsertInPlace(a, i, le);
      assert a[..i] == s[..i];
    }
  }

  /** Moves `a[i]` rightwards past the elements of the sorted tail `a[i + 1..]` it may not precede. */
  method InsertInPlace<T>(a: array<T>, i: nat, le: (T, T) -> bool)
    requires i < a.Length
    modifies a
    ensures a[..i] == old(a[..i])
    ensures a[i..] == InsertBy(old(a[i]), old(a[i + 1..]), le)
  {
    ghost var pre, t := a[..i], a[i + 1..];
    var x := a[i];
    var j := ShiftAndPlace(a, i, x, le, pre, t);
    InsertAt(x, t, j - i, le);
    Placed(a, i, j, pre, t, x);
  }

  /**
   * The loop of the insertion: shifts the elements of `t` that `x` may not
   * precede one place to the left and writes `x` into the gap at `j`.
   */
  method ShiftAndPlace<T>(a: array<T>, i: nat, x: T, le: (T, T) -> bool, ghost pre: seq<T>, ghost t: seq<T>)
    returns (j: nat)
    requires i < a.Length == i + |t| + 1 && |pre| == i
    requires forall l :: 0 <= l < i ==> a[l] == pre[l]
    requires forall l :: i < l < a.Length ==> a[l] == t[l - i - 1]
    modifies a
    ensures i <= j < a.Length
    ensures forall l :: 0 <= l < i ==> a[l] == pre[l]
    ensures forall l :: i <= l < j ==> a[l] == t[l - i]
    ensures a[j] == x
    ensures forall l :: j < l < a.Length ==> a[l] == t[l - i - 1]
    ensures forall l :: 0 <= l < j - i ==> !le(x, t[l])
    ensures j - i == |t| || le(x, t[j - i])
  {
    j := i;
    while j + 1 < a.Length && !le(x, a[j + 1])
      invariant i <= j < a.Length
      invariant forall l :: 0 <= l < i ==> a[l] == pre[l]
      invariant forall l :: i <= l < j ==> a[l] == t[l - i]
      invariant forall l :: j < l < a.Length ==> a[l] == t[l - i - 1]
      invariant forall l :: 0 <= l < j - i ==> !le(x, t[l])
      decreases a.Length - j
    {
      a[j] := a[j + 1];
      j := j + 1;
    }
    a[j] := x;
  }

  /** A buffer holding `pre`, then `t` with `x` spliced in at `j`. */
  lemma Placed<T>(a: array<T>, i: nat, j: nat, pre: seq<T>, t: seq<T>, x: T)
    requires i <= j < a.Length == i + |t| + 1 && |pre| == i
    requires forall l :: 0 <= l < i ==> a[l] == pre[l]
    requires forall l :: i <= l < j ==> a[l] == t[l - i]
    requires a[j] == x
    requires forall l :: j < l < a.Length ==> a[l] == t[l - i - 1]
    ensures a[..i] == pre
    ensures a[i..] == t[..j - i] + [x] + t[j - i..]
  {
  }

  /** `x` lands behind the leading elements it may not precede. */
  lemma {:induction false} InsertAt<T>(x: T, t: seq<T>, m: nat, le: (T, T) -> bool)
    requires m <= |t|
    requires forall l :: 0 <= l < m ==> !le(x, t[l])
    requires m == |t| || le(x, t[m])
    ensures InsertBy(x, t, le) == t[..m] + [x] + t[m..]
    decreases m
  {
    if m > 0 {
      var rest := t[1..];
      InsertAt(x, rest, m - 1, le);
      assert InsertBy(x, t, le) == [t[0]] + InsertBy(x, rest, le);
      assert t[..m] + [x] + t[m..] == [t[0]] + (rest[..m - 1] + [x] + rest[m - 1..]);
    }
  }

  /** Keeps the first element of each run that `same` groups, comparing with the last one kept. */
  method DedupInPlace<T>(s: seq<T>, same: (T, T) -> bool) returns (kept: seq<T>)
    ensures kept == DedupBy(s, same)
  {
    kept := [];
    var r := 0;
    while r < |s|
      invariant 0 <= r <= |s|
      invariant kept == DedupBy(s[..r], same)
    {
      DedupBySnoc(s, r, same);
      if |kept| == 0 || !same(s[r], kept[|kept| - 1]) {
        kept := kept + [s[r]];
      }
      r := r + 1;
    }
    assert s[..r] == s;
  }

  /** Keeps the plausible bars in their order, as `retain` does. */
  method RetainPlausible(s: seq<Bar>) returns (kept: seq<Bar>)
    ensures kept == Filter(s, Plausible)
  {
    kept := [];
    var r := 0;
    while r < |s|
      invariant 0 <= r <= |s|
      invariant kept == Filter(s[..r], Plausible)
    {
      FilterSnoc(s, r, Plausible);
      if s[r].close > 0.0 {
        kept := kept + [s[r]];
      }
      r := r + 1;
    }
    assert s[..r] == s;
  }

  lemma DedupBySnoc<T>(s: seq<T>, r: nat, same: (T, T) -> bool)
    requires r < |s|
    ensures var d := DedupBy(s[..r], same);
            DedupBy(s[..r + 1], same) == if |d| > 0 && same(s[r], d[|d| - 1]) then d else d + [s[r]]
  {
    assert s[..r + 1][..r] == s[..r];
  }

  lemma FilterSnoc<T>(s: seq<T>, r: nat, keep: T -> bool)
    requires r < |s|
    ensures Filter(s[..r + 1], keep) == Filter(s[..r], keep) + if keep(s[r]) then [s[r]] else []
  {
    assert s[..r + 1][..r] == s[..r];
  }
}
