/**
 The distinct elements of a history in order of last use: the reference against which a least-
 recently-used cache is judged.
 */
module Recency {
  import opened Common

  function Without<T(==)>(s: seq<T>, k: T): seq<T> {
    if s == [] then []
    else Without(s[..|s| - 1], k) + if s[|s| - 1] == k then [] else [s[|s| - 1]]
  }

  /** The distinct elements of a history, ordered by last use. */
  function Recent<T(==)>(uses: seq<T>): seq<T> {
    if uses == [] then []
    else Without(Recent(uses[..|uses| - 1]), uses[|uses| - 1]) + [uses[|uses| - 1]]
  }

  function Newest<T>(s: seq<T>, max: nat): seq<T> {
    if |s| <= max then s else s[|s| - max..]
  }

  lemma {:induction false} WithoutConcat<T>(a: seq<T>, b: seq<T>, k: T)
    ensures Without(a + b, k) == Without(a, k) + Without(b, k)
  {
    if b == [] {
      assert a + b == a;
    } else {
      assert (a + b)[..|a + b| - 1] == a + b[..|b| - 1];
      WithoutConcat(a, b[..|b| - 1], k);
    }
  }

  lemma {:induction false} WithoutAbsent<T>(s: seq<T>, k: T)
    requires k !in s
    ensures Without(s, k) == s
  {
    if s == [] {
    } else {
      WithoutAbsent(s[..|s| - 1], k);
      assert s == s[..|s| - 1] + [s[|s| - 1]];
    }
  }

  /** Taking out an element that stands once. */
  lemma {:induction false} WithoutOnce<T>(s: seq<T>, i: nat)
    requires i < |s| && s[i] !in s[..i] && s[i] !in s[i + 1..]
    ensures Without(s, s[i]) == s[..i] + s[i + 1..]
  {
    var k := s[i];
    assert s == s[..i + 1] + s[i + 1..];
    WithoutConcat(s[..i + 1], s[i + 1..], k);
    WithoutAbsent(s[i + 1..], k);
    assert s[..i + 1][..i] == s[..i];
    WithoutAbsent(s[..i], k);
  }

  lemma {:induction false} DistinctOnce<T(!new)>(s: seq<T>, i: nat)
    requires Distinct(s) && i < |s|
    ensures s[i] !in s[..i] && s[i] !in s[i + 1..]
  {
  }

  lemma {:induction false} TakeOut<T(!new)>(s: seq<T>, k: T)
    requires Distinct(s)
    ensures Distinct(Without(s, k) + [k])
    ensures forall x :: x in Without(s, k) <==> x in s && x != k
  {
    var t := Without(s, k);
    forall x ensures x in t <==> x in s && x != k { WithoutMember(s, k, x); }
    WithoutDistinct(s, k);
    forall i | 0 <= i < |t| ensures t[i] != k { assert t[i] in t; }
  }

  lemma {:induction false} WithoutMember<T(!new)>(s: seq<T>, k: T, x: T)
    ensures x in Without(s, k) <==> x in s && x != k
  {
    if s == [] {
    } else {
      var init, last := s[..|s| - 1], s[|s| - 1];
      WithoutMember(init, k, x);
      assert s == init + [last];
    }
  }

  lemma {:induction false} WithoutDistinct<T(!new)>(s: seq<T>, k: T)
    requires Distinct(s)
    ensures Distinct(Without(s, k))
  {
    if s == [] {
    } else {
      var init, last := s[..|s| - 1], s[|s| - 1];
      WithoutDistinct(init, k);
      WithoutMember(init, k, last);
      assert last !in init;
    }
  }

  lemma {:induction false} RecentDistinct<T(!new)>(uses: seq<T>)
    ensures Distinct(Recent(uses))
    ensures forall k :: k in Recent(uses) <==> k in uses
  {
    if uses == [] {
    } else {
      var init, k := uses[..|uses| - 1], uses[|uses| - 1];
      RecentDistinct(init);
      assert uses == init + [k];
      TakeOut(Recent(init), k);
    }
  }

  /** One more use: the newest elements afterwards, from the newest elements before. */
  lemma {:induction false} NewestStep<T(!new)>(r: seq<T>, k: T, max: nat)
    requires Distinct(r) && max > 0
    ensures var n := Newest(r, max);
            Newest(Without(r, k) + [k], max) ==
            if k in n then Without(n, k) + [k]
            else if |n| < max then n + [k] else n[1..] + [k]
  {
    var n := Newest(r, max);
    var rest := r[..|r| - |n|];
    assert r == rest + n;
    if k in n {
      assert k !in rest;
      UseOfNew(rest, n, k, max);
    } else {
      UseOfOld(rest, n, k, max);
    }
  }

  lemma {:induction false} UseOfNew<T(!new)>(rest: seq<T>, n: seq<T>, k: T, max: nat)
    requires (if rest == [] then |n| <= max else |n| == max) && k in n && k !in rest && Distinct(n)
    ensures Newest(Without(rest + n, k) + [k], max) == Without(n, k) + [k]
  {
    WithoutConcat(rest, n, k);
    WithoutAbsent(rest, k);
    WithoutLength(n, k);
    NewestIsTail(rest, Without(n, k) + [k], max);
    assert Without(rest + n, k) + [k] == rest + (Without(n, k) + [k]);
  }

  lemma {:induction false} UseOfOld<T(!new)>(rest: seq<T>, n: seq<T>, k: T, max: nat)
    requires (if rest == [] then |n| <= max else |n| == max) && k !in n && max > 0
    ensures Newest(Without(rest + n, k) + [k], max) == if |n| < max then n + [k] else n[1..] + [k]
  {
    WithoutConcat(rest, n, k);
    WithoutAbsent(n, k);
    if |n| == max {
      NewestDropsOne(Without(rest, k), n, k, max);
    } else {
      assert Without(rest + n, k) == n;
    }
  }

  lemma {:induction false} NewestDropsOne<T>(rest: seq<T>, n: seq<T>, k: T, max: nat)
    requires |n| == max > 0
    ensures Newest(rest + n + [k], max) == n[1..] + [k]
  {
    NewestIsTail(rest + [n[0]], n[1..] + [k], max);
    assert rest + n + [k] == (rest + [n[0]]) + (n[1..] + [k]);
  }

  lemma {:induction false} NewestIsTail<T>(a: seq<T>, b: seq<T>, max: nat)
    requires if a == [] then |b| <= max else |b| == max
    ensures Newest(a + b, max) == b
  {
  }

  lemma {:induction false} WithoutLength<T(!new)>(s: seq<T>, k: T)
    requires Distinct(s)
    ensures |Without(s, k)| == if k in s then |s| - 1 else |s|
  {
    if k in s {
      var i :| 0 <= i < |s| && s[i] == k;
      DistinctOnce(s, i);
      WithoutOnce(s, i);
    } else {
      WithoutAbsent(s, k);
    }
  }

  // ---- What recency means ----

  function LastUse<T(==)>(uses: seq<T>, k: T): (i: nat)
    requires k in uses
    ensures i < |uses| && uses[i] == k && forall j :: i < j < |uses| ==> uses[j] != k
  {
    if uses[|uses| - 1] == k then |uses| - 1 else LastUse(uses[..|uses| - 1], k)
  }

  ghost predicate ByLastUse<T(!new)>(s: seq<T>, uses: seq<T>) {
    && (forall i :: 0 <= i < |s| ==> s[i] in uses)
    && forall i, j :: 0 <= i < j < |s| ==> LastUse(uses, s[i]) < LastUse(uses, s[j])
  }

  lemma {:induction false} LastUseGrows<T(!new)>(uses: seq<T>, k: T, x: T)
    requires x in uses
    ensures LastUse(uses + [k], x) == if x == k then |uses| else LastUse(uses, x)
  {
    assert (uses + [k])[..|uses|] == uses;
  }

  /** One more use keeps the order by last use. */
  lemma {:induction false} UseKeepsOrder<T(!new)>(s: seq<T>, uses: seq<T>, k: T)
    requires ByLastUse(s, uses) && Distinct(s)
    ensures ByLastUse(Without(s, k) + [k], uses + [k])
  {
    var t := Without(s, k);
    TakeOut(s, k);
    WithoutKeepsOrder(s, uses, k);
    forall i | 0 <= i < |t| ensures t[i] in uses && LastUse(uses + [k], t[i]) == LastUse(uses, t[i]) {
      assert t[i] in t;
      LastUseGrows(uses, k, t[i]);
    }
    assert (uses + [k])[|uses|] == k;
  }

  lemma {:induction false} OrderGrows<T(!new)>(t: seq<T>, x: T, uses: seq<T>)
    requires ByLastUse(t, uses) && x in uses
    requires forall i :: 0 <= i < |t| ==> LastUse(uses, t[i]) < LastUse(uses, x)
    ensures ByLastUse(t + [x], uses)
  {
  }

  lemma {:induction false} OrderShrinks<T(!new)>(init: seq<T>, x: T, uses: seq<T>)
    requires ByLastUse(init + [x], uses)
    ensures ByLastUse(init, uses) && x in uses
    ensures forall y :: y in init ==> y in uses && LastUse(uses, y) < LastUse(uses, x)
  {
    var s := init + [x];
    assert s[|init|] == x;
    forall i | 0 <= i < |init| ensures s[i] == init[i] {}
    forall y | y in init ensures y in uses && LastUse(uses, y) < LastUse(uses, x) {
      var i :| 0 <= i < |init| && init[i] == y;
      assert s[i] == y;
    }
  }

  lemma {:induction false} WithoutKeepsOrder<T(!new)>(s: seq<T>, uses: seq<T>, k: T)
    requires ByLastUse(s, uses)
    ensures ByLastUse(Without(s, k), uses)
  {
    if s == [] {
    } else {
      var init, x := s[..|s| - 1], s[|s| - 1];
      assert s == init + [x];
      OrderShrinks(init, x, uses);
      WithoutKeepsOrder(init, uses, k);
      var t := Without(init, k);
      forall i | 0 <= i < |t| ensures t[i] in init { WithoutMember(init, k, t[i]); }
      if x == k {
        assert Without(s, k) == t;
      } else {
        OrderGrows(t, x, uses);
      }
    }
  }

  lemma {:induction false} RecentIsByLastUse<T(!new)>(uses: seq<T>)
    ensures ByLastUse(Recent(uses), uses)
  {
    if uses == [] {
    } else {
      var init, k := uses[..|uses| - 1], uses[|uses| - 1];
      assert uses == init + [k];
      RecentIsByLastUse(init);
      RecentDistinct(init);
      UseKeepsOrder(Recent(init), init, k);
    }
  }

  function Elements<T(==)>(s: seq<T>): set<T> {
    set k | k in s
  }

  /** The elements used since the last use of `k`. */
  function UsedSince<T(==)>(uses: seq<T>, k: T): set<T>
    requires k in uses
  {
    Elements(uses[LastUse(uses, k) + 1..])
  }

  lemma {:induction false} DistinctSize<T(!new)>(s: seq<T>)
    requires Distinct(s)
    ensures |Elements(s)| == |s|
  {
    if s == [] {
    } else {
      var init := s[..|s| - 1];
      DistinctSize(init);
      assert Elements(s) == Elements(init) + {s[|s| - 1]};
      assert s[|s| - 1] !in init;
    }
  }

  lemma {:induction false} SinceIsTail<T(!new)>(uses: seq<T>, i: nat)
    requires i < |Recent(uses)| && Recent(uses)[i] in uses
    ensures |UsedSince(uses, Recent(uses)[i])| == |Recent(uses)| - 1 - i
  {
    var s := Recent(uses);
    var k := s[i];
    RecentDistinct(uses);
    RecentIsByLastUse(uses);
    forall x ensures x in UsedSince(uses, k) <==> x in s[i + 1..] {
      if x in uses {
        var p :| 0 <= p < |s| && s[p] == x;
        var l := LastUse(uses, k);
        assert x in uses[l + 1..] <==> LastUse(uses, x) > l by {
          if LastUse(uses, x) > l { assert uses[l + 1..][LastUse(uses, x) - l - 1] == x; }
        }
        assert x in s[i + 1..] <==> p > i by {
          if p > i { assert s[i + 1..][p - i - 1] == x; }
        }
      }
    }
    DistinctSize(s[i + 1..]);
    assert UsedSince(uses, k) == Elements(s[i + 1..]);
  }

  /** An element is among the `max` newest exactly if it was used and fewer than `max` others have been used since. */
  lemma {:induction false} NewestIff<T(!new)>(uses: seq<T>, k: T, max: nat)
    ensures k in Newest(Recent(uses), max) <==> k in uses && |UsedSince(uses, k)| < max
  {
    var s := Recent(uses);
    var n := Newest(s, max);
    RecentDistinct(uses);
    if k in uses {
      var i :| 0 <= i < |s| && s[i] == k;
      SinceIsTail(uses, i);
      assert k in n <==> |s| - i <= max by {
        if |s| - i <= max { assert n[i - (|s| - |n|)] == k; }
      }
    }
  }
}
