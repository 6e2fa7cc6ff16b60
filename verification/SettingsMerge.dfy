/** Finite maps keyed by paths, and moving all their paths under a prefix. */
module PathMaps {

  type Path = seq<string>

  /** The map `d` with `prefix` before every path. */
  function Under<V>(prefix: Path, d: map<Path, V>): map<Path, V> {
    map q | q in UnderPaths(prefix, d.Keys) && prefix <= q && q[|prefix|..] in d :: d[q[|prefix|..]]
  }

  function UnderPaths(prefix: Path, paths: set<Path>): set<Path> {
    set p | p in paths :: prefix + p
  }

  lemma {:induction false} UnderAt<V>(prefix: Path, d: map<Path, V>, q: Path)
    ensures q in Under(prefix, d) <==> prefix <= q && q[|prefix|..] in d
    ensures q in Under(prefix, d) ==> Under(prefix, d)[q] == d[q[|prefix|..]]
  {
    if prefix <= q && q[|prefix|..] in d {
      assert q == prefix + q[|prefix|..];
    }
  }

  lemma {:induction false} IsUnion<V(!new)>(m: map<Path, V>, a: map<Path, V>, b: map<Path, V>)
    requires forall q :: q in m <==> q in a || q in b
    requires forall q :: q in m ==> m[q] == if q in b then b[q] else a[q]
    ensures m == a + b
  {
    assert m.Keys == (a + b).Keys;
  }

  lemma {:induction false} UnderPlus<V(!new)>(prefix: Path, a: map<Path, V>, b: map<Path, V>)
    ensures Under(prefix, a + b) == Under(prefix, a) + Under(prefix, b)
  {
    forall q ensures q in Under(prefix, a + b) <==> q in Under(prefix, a) || q in Under(prefix, b)
      ensures q in Under(prefix, a + b) ==>
                Under(prefix, a + b)[q] ==
                if q in Under(prefix, b) then Under(prefix, b)[q] else Under(prefix, a)[q]
    {
      UnderAt(prefix, a + b, q);
      UnderAt(prefix, a, q);
      UnderAt(prefix, b, q);
    }
    IsUnion(Under(prefix, a + b), Under(prefix, a), Under(prefix, b));
  }

  lemma {:induction false} UnderUnder<V(!new)>(p: Path, r: Path, d: map<Path, V>)
    ensures Under(p, Under(r, d)) == Under(p + r, d)
  {
    var x, y := Under(p, Under(r, d)), Under(p + r, d);
    forall q ensures q in x <==> q in y
      ensures q in x ==> x[q] == y[q]
    {
      UnderAt(p, Under(r, d), q);
      UnderAt(p + r, d, q);
      if p <= q {
        UnderAt(r, d, q[|p|..]);
        Split(p, r, q);
      }
    }
    assert x.Keys == y.Keys;
  }

  lemma {:induction false} Split(p: Path, r: Path, q: Path)
    requires p <= q
    ensures p + r <= q <==> r <= q[|p|..]
    ensures p + r <= q ==> q[|p|..][|r|..] == q[|p + r|..]
  {
    assert q == p + q[|p|..];
    if r <= q[|p|..] { assert q[..|p + r|] == p + r; }
    if p + r <= q { assert q[|p|..][..|r|] == r; }
  }

  lemma {:induction false} SingleEntry<V(!new)>(path: Path, v: V)
    ensures Under(path, map[[] := v]) == map[path := v]
  {
    var d := map[[] := v];
    forall q ensures q in Under(path, d) <==> q == path {
      UnderAt(path, d, q);
      if path <= q && q[|path|..] == [] { assert q == path + q[|path|..]; }
    }
    UnderAt(path, d, path);
  }

  lemma {:induction false} UnderEmpty<V(!new)>(prefix: Path, d: map<Path, V>)
    requires d == map[]
    ensures Under(prefix, d) == map[]
  {
    forall q ensures q !in Under(prefix, d) { UnderAt(prefix, d, q); }
  }
}

/**
 Merging an update into an organization's settings, and the flat diff recorded for it.  A path is
 the sequence of keys from the root.
 */
module SettingsMerge {
  import opened PathMaps

  /** A setting: null, any other value that is not a dictionary, or a dictionary. */
  datatype Json = Null | Leaf(text: string) | Obj(fields: map<string, Json>)

  datatype Change = Change(was: Json, now: Json)

  // ---- The two operations ----

  function Merge(prior: Json, update: Json): Json
    decreases update, 1
  {
    if !prior.Obj? || !update.Obj? then update
    else Obj(MergeFields(prior.fields, update.fields))
  }

  function MergeFields(prior: map<string, Json>, update: map<string, Json>): map<string, Json>
    decreases Obj(update), 0
  {
    map k | k in prior.Keys + update.Keys ::
      if k !in update then prior[k] else if k in prior then Merge(prior[k], update[k]) else update[k]
  }

  /** The value at a key, null if there is none. */
  function At(fields: map<string, Json>, k: string): Json {
    if k in fields then fields[k] else Null
  }

  function FieldsOf(j: Json): map<string, Json> {
    if j.Obj? then j.fields else map[]
  }

  /** The entries one key of the update contributes to the diff. */
  function DiffKey(was: Json, now: Json): map<Path, Change>
    decreases now, 2
  {
    if now.Obj? then Diff(FieldsOf(was), now.fields)
    else if now != was then map[[] := Change(was, now)]
    else map[]
  }

  function Diff(prior: map<string, Json>, update: map<string, Json>): map<Path, Change>
    decreases Obj(update), 1
  {
    map q | q in DiffPaths(prior, update) && Contributes(prior, update, q) ::
      DiffKey(At(prior, q[0]), update[q[0]])[q[1..]]
  }

  function DiffPaths(prior: map<string, Json>, update: map<string, Json>): set<Path>
    decreases Obj(update), 0
  {
    set k, p | k in update && p in DiffKey(At(prior, k), update[k]) :: [k] + p
  }

  predicate Contributes(prior: map<string, Json>, update: map<string, Json>, q: Path)
    decreases Obj(update), 0
  {
    q != [] && q[0] in update && q[1..] in DiffKey(At(prior, q[0]), update[q[0]])
  }

  /** One path of a diff: its first key selects what is diffed, the rest is an entry there. */
  lemma {:induction false} DiffAt(prior: map<string, Json>, update: map<string, Json>, q: Path)
    ensures q in Diff(prior, update) <==> Contributes(prior, update, q)
    ensures q in Diff(prior, update) ==> Diff(prior, update)[q] == DiffKey(At(prior, q[0]), update[q[0]])[q[1..]]
  {
    if Contributes(prior, update, q) {
      assert q == [q[0]] + q[1..];
    }
  }

  // ---- What they mean ----

  /** The value at a path, null if there is none. */
  function Lookup(j: Json, p: Path): Json {
    if p == [] then j
    else if j.Obj? && p[0] in j.fields then Lookup(j.fields[p[0]], p[1..])
    else Null
  }

  /** The path exists and ends at something other than a dictionary. */
  predicate IsLeaf(j: Json, p: Path) {
    if p == [] then !j.Obj? else j.Obj? && p[0] in j.fields && IsLeaf(j.fields[p[0]], p[1..])
  }

  /** Following the path leads out of the dictionaries of `j` at a missing key. */
  predicate FallsOff(j: Json, p: Path) {
    p != [] && j.Obj? && (p[0] !in j.fields || FallsOff(j.fields[p[0]], p[1..]))
  }

  /**
   The leaves of a merge are those of the update and those old ones whose path the update does not
   meet, with their values.
   */
  lemma {:induction false} MergedLeaves(prior: Json, update: Json, p: Path)
    ensures IsLeaf(Merge(prior, update), p) <==> IsLeaf(update, p) || (IsLeaf(prior, p) && FallsOff(update, p))
    ensures IsLeaf(update, p) ==> Lookup(Merge(prior, update), p) == Lookup(update, p)
    ensures IsLeaf(prior, p) && FallsOff(update, p) ==> Lookup(Merge(prior, update), p) == Lookup(prior, p)
    decreases |p|
  {
    if p != [] && prior.Obj? && update.Obj? && p[0] in prior.fields && p[0] in update.fields {
      MergedLeaves(prior.fields[p[0]], update.fields[p[0]], p[1..]);
    }
  }

  /** The path exists. */
  predicate Present(j: Json, p: Path) {
    p == [] || (j.Obj? && p[0] in j.fields && Present(j.fields[p[0]], p[1..]))
  }

  /**
   The paths of a merge are those of the update and those old ones that the update does not meet;
   so no dictionary is lost or invented either.
   */
  lemma {:induction false} MergedPaths(prior: Json, update: Json, p: Path)
    ensures Present(Merge(prior, update), p) <==> Present(update, p) || (Present(prior, p) && FallsOff(update, p))
    decreases |p|
  {
    if p != [] && prior.Obj? && update.Obj? && p[0] in prior.fields && p[0] in update.fields {
      MergedPaths(prior.fields[p[0]], update.fields[p[0]], p[1..]);
    }
  }

  lemma {:induction false} MergeSelf(j: Json)
    ensures Merge(j, j) == j
  {
    if j.Obj? {
      forall k | k in j.fields ensures Merge(j.fields[k], j.fields[k]) == j.fields[k] { MergeSelf(j.fields[k]); }
      assert MergeFields(j.fields, j.fields) == j.fields;
    }
  }

  /** Applying an update twice is applying it once. */
  lemma {:induction false} MergeIdempotent(prior: Json, update: Json)
    ensures Merge(Merge(prior, update), update) == Merge(prior, update)
    decreases update
  {
    MergeSelf(update);
    if prior.Obj? && update.Obj? {
      var a, b := prior.fields, update.fields;
      var m := MergeFields(a, b);
      forall k | k in b ensures Merge(m[k], b[k]) == m[k] {
        MergeSelf(b[k]);
        if k in a { MergeIdempotent(a[k], b[k]); }
      }
      assert MergeFields(m, b) == m;
    }
  }

  /** The diff records exactly the leaves of the update that differ from the old value, each with both values. */
  lemma {:induction false} DiffKeyExact(was: Json, now: Json, p: Path)
    ensures p in DiffKey(was, now) <==> IsLeaf(now, p) && Lookup(was, p) != Lookup(now, p)
    ensures p in DiffKey(was, now) ==> DiffKey(was, now)[p] == Change(Lookup(was, p), Lookup(now, p))
    decreases |p|
  {
    if now.Obj? {
      DiffAt(FieldsOf(was), now.fields, p);
      if p != [] && p[0] in now.fields {
        DiffKeyExact(At(FieldsOf(was), p[0]), now.fields[p[0]], p[1..]);
        LookupNull(p[1..]);
      }
    }
  }

  lemma {:induction false} LookupNull(p: Path)
    ensures Lookup(Null, p) == Null
  {
  }

  lemma {:induction false} DiffExact(prior: map<string, Json>, update: map<string, Json>, p: Path)
    ensures p in Diff(prior, update) <==> IsLeaf(Obj(update), p) && Lookup(Obj(prior), p) != Lookup(Obj(update), p)
    ensures p in Diff(prior, update) ==> Diff(prior, update)[p] == Change(Lookup(Obj(prior), p), Lookup(Obj(update), p))
  {
    DiffKeyExact(Obj(prior), Obj(update), p);
  }

  /** Diffing against the merged settings gives what diffing against the update gives. */
  lemma {:induction false} DiffOfMerge(prior: map<string, Json>, update: map<string, Json>)
    ensures Diff(prior, MergeFields(prior, update)) == Diff(prior, update)
  {
    var merged := MergeFields(prior, update);
    forall p ensures p in Diff(prior, merged) <==> p in Diff(prior, update)
      ensures p in Diff(prior, update) ==> Diff(prior, merged)[p] == Diff(prior, update)[p]
    {
      DiffExact(prior, merged, p);
      DiffExact(prior, update, p);
      MergedLeaves(Obj(prior), Obj(update), p);
    }
  }

  /** Every entry holds the old value and the merged value. */
  lemma {:induction false} EntriesTellTheChange(prior: map<string, Json>, update: map<string, Json>, p: Path)
    requires p in Diff(prior, update)
    ensures Diff(prior, update)[p] == Change(Lookup(Obj(prior), p), Lookup(Merge(Obj(prior), Obj(update)), p))
  {
    DiffExact(prior, update, p);
    MergedLeaves(Obj(prior), Obj(update), p);
  }

  /** A leaf of the merged settings is in the diff exactly if its value changed. */
  lemma {:induction false} UnrecordedLeavesKeepTheirValue(prior: map<string, Json>, update: map<string, Json>, p: Path)
    requires IsLeaf(Merge(Obj(prior), Obj(update)), p)
    ensures p !in Diff(prior, update) <==> Lookup(Merge(Obj(prior), Obj(update)), p) == Lookup(Obj(prior), p)
  {
    DiffOfMerge(prior, update);
    DiffExact(prior, MergeFields(prior, update), p);
  }

  // ---- When an empty diff means that nothing changed ----

  /** The update puts no dictionary where there was none, and no null where there was nothing. */
  predicate Fits(prior: Json, update: Json)
    decreases update
  {
    update.Obj? ==>
      && prior.Obj?
      && forall k :: k in update.fields ==>
                       (k in prior.fields || update.fields[k].Leaf?) && Fits(At(prior.fields, k), update.fields[k])
  }

  /** One key of the update leaves the old settings as they are. */
  predicate SameAt(prior: map<string, Json>, update: map<string, Json>, k: string)
    requires k in update
  {
    k in prior && Merge(prior[k], update[k]) == prior[k]
  }

  lemma {:induction false} SameFields(prior: map<string, Json>, update: map<string, Json>)
    ensures MergeFields(prior, update) == prior <==> forall k :: k in update ==> SameAt(prior, update, k)
  {
    var m := MergeFields(prior, update);
    if m == prior {
      forall k | k in update ensures SameAt(prior, update, k) { assert k in m && m[k] == prior[k]; }
    }
    if forall k :: k in update ==> SameAt(prior, update, k) {
      forall k | k in m ensures k in prior && m[k] == prior[k] { assert k in update ==> SameAt(prior, update, k); }
      assert m == prior;
    }
  }

  lemma {:induction false} UnchangedIffAt(prior: Json, update: Json)
    ensures Merge(prior, update) == prior <==> DiffKey(prior, update) == map[] && Fits(prior, update)
    decreases update
  {
    if prior.Obj? && update.Obj? {
      var a, b := prior.fields, update.fields;
      forall k | k in b
        ensures SameAt(a, b, k) <==>
                DiffKey(At(a, k), b[k]) == map[] && (k in a || b[k].Leaf?) && Fits(At(a, k), b[k])
      {
        UnchangedIffAt(At(a, k), b[k]);
        if !b[k].Obj? { LeafDiff(At(a, k), b[k]); }
      }
      SameFields(a, b);
      DiffEmpty(a, b);
    } else if !update.Obj? {
      LeafDiff(prior, update);
    }
  }

  lemma {:induction false} LeafDiff(was: Json, now: Json)
    requires !now.Obj?
    ensures DiffKey(was, now) == map[] <==> was == now
  {
    assert was != now ==> [] in DiffKey(was, now);
  }

  lemma {:induction false} DiffEmpty(prior: map<string, Json>, update: map<string, Json>)
    ensures Diff(prior, update) == map[] <==> forall k :: k in update ==> DiffKey(At(prior, k), update[k]) == map[]
  {
    if k :| k in update && DiffKey(At(prior, k), update[k]) != map[] {
      var p :| p in DiffKey(At(prior, k), update[k]);
      assert ([k] + p)[1..] == p;
      DiffAt(prior, update, [k] + p);
    }
  }

  /** The update changes nothing exactly if its diff is empty and it adds no bare dictionary or null. */
  lemma {:induction false} UnchangedIff(prior: map<string, Json>, update: map<string, Json>)
    ensures MergeFields(prior, update) == prior <==> Diff(prior, update) == map[] && Fits(Obj(prior), Obj(update))
  {
    UnchangedIffAt(Obj(prior), Obj(update));
  }

  /** An empty dictionary in place of a value discards it and leaves no trace in the diff. */
  lemma {:induction false} EmptyDictionaryErasesSilently(k: string, text: string)
    ensures var prior, update := map[k := Leaf(text)], map[k := Obj(map[])];
            Diff(prior, update) == map[] && MergeFields(prior, update) == update
  {
    var prior, update := map[k := Leaf(text)], map[k := Obj(map[])];
    var none: map<string, Json> := map[];
    DiffEmpty(none, none);
    assert DiffKey(At(prior, k), update[k]) == Diff(none, none);
    DiffEmpty(prior, update);
    assert MergeFields(prior, update)[k] == update[k];
  }

  // ---- The loops ----

  method DeepMerge(prior: Json, update: Json) returns (r: Json)
    ensures r == Merge(prior, update)
    decreases update
  {
    if !prior.Obj? || !update.Obj? { return update; }
    var out := prior.fields;
    var todo := update.fields.Keys;
    while todo != {}
      invariant todo <= update.fields.Keys
      invariant out == MergeFields(prior.fields, Restrict(update.fields, update.fields.Keys - todo))
    {
      var k :| k in todo;
      var v := update.fields[k];
      if v.Obj? && k in out && out[k].Obj? {
        var merged := DeepMerge(out[k], v);
        out := out[k := merged];
      } else {
        out := out[k := v];
      }
      todo := todo - {k};
    }
    assert Restrict(update.fields, update.fields.Keys) == update.fields;
    r := Obj(out);
  }

  function Restrict(fields: map<string, Json>, keys: set<string>): map<string, Json> {
    map k | k in fields && k in keys :: fields[k]
  }

  /** The diff over some keys of the update, under the prefix. */
  function Partial(prior: map<string, Json>, update: map<string, Json>, prefix: Path,
                   done: set<string>): map<Path, Change> {
    Under(prefix, Diff(prior, Restrict(update, done)))
  }

  lemma {:induction false} PartialOfNone(prior: map<string, Json>, update: map<string, Json>, prefix: Path)
    ensures Partial(prior, update, prefix, {}) == map[]
  {
    var d := Diff(prior, Restrict(update, {}));
    forall q ensures q !in d { DiffAt(prior, Restrict(update, {}), q); }
    assert d == map[];
    UnderEmpty(prefix, d);
  }

  lemma {:induction false} OneMore(keys: set<string>, todo: set<string>, k: string)
    requires k in todo && todo <= keys
    ensures keys - todo + {k} == keys - (todo - {k})
  {
  }

  lemma {:induction false} RestrictAll(update: map<string, Json>)
    ensures Restrict(update, update.Keys) == update
  {
  }

  method DiffSettings(prior: map<string, Json>, update: map<string, Json>,
                      prefix: Path) returns (out: map<Path, Change>)
    ensures out == Under(prefix, Diff(prior, update))
    decreases Obj(update), 0
  {
    PartialOfNone(prior, update, prefix);
    out := map[];
    var todo := update.Keys;
    ghost var done: set<string> := {};
    while todo != {}
      invariant todo <= update.Keys && done == update.Keys - todo
      invariant out == Partial(prior, update, prefix, done)
    {
      var k :| k in todo;
      var entries := KeyEntries(At(prior, k), update[k], prefix + [k]);
      AddKey(prior, update, prefix, done, k);
      OneMore(update.Keys, todo, k);
      out := out + entries;
      todo := todo - {k};
      done := done + {k};
    }
    assert done == update.Keys;
    RestrictAll(update);
  }

  /** The entries for one key: a recursive diff for a dictionary, at most one entry for a leaf. */
  method KeyEntries(was: Json, now: Json, path: Path) returns (entries: map<Path, Change>)
    ensures entries == Under(path, DiffKey(was, now))
    decreases now, 1
  {
    if now.Obj? {
      entries := DiffSettings(FieldsOf(was), now.fields, path);
    } else if now != was {
      entries := map[path := Change(was, now)];
      SingleEntry(path, Change(was, now));
    } else {
      entries := map[];
    }
  }

  lemma {:induction false} AddKey(prior: map<string, Json>, update: map<string, Json>, prefix: Path,
                                  done: set<string>, k: string)
    requires k in update && k !in done
    ensures Partial(prior, update, prefix, done + {k}) ==
            Partial(prior, update, prefix, done) + Under(prefix + [k], DiffKey(At(prior, k), update[k]))
  {
    var d := DiffKey(At(prior, k), update[k]);
    AddKeyDiff(prior, update, done, k);
    UnderPlus(prefix, Diff(prior, Restrict(update, done)), Under([k], d));
    UnderUnder(prefix, [k], d);
  }

  lemma {:induction false} AddKeyDiff(prior: map<string, Json>, update: map<string, Json>, done: set<string>, k: string)
    requires k in update && k !in done
    ensures Diff(prior, Restrict(update, done + {k})) ==
            Diff(prior, Restrict(update, done)) + Under([k], DiffKey(At(prior, k), update[k]))
  {
    var before, after := Diff(prior, Restrict(update, done)), Diff(prior, Restrict(update, done + {k}));
    var entries := Under([k], DiffKey(At(prior, k), update[k]));
    forall p ensures p in after <==> p in before || p in entries
      ensures p in after ==> after[p] == if p in entries then entries[p] else before[p]
    {
      AddKeyAt(prior, update, done, k, p);
    }
    IsUnion(after, before, entries);
  }

  lemma {:induction false} AddKeyAt(prior: map<string, Json>, update: map<string, Json>, done: set<string>,
                                    k: string, p: Path)
    requires k in update && k !in done
    ensures var before, after := Diff(prior, Restrict(update, done)), Diff(prior, Restrict(update, done + {k}));
            var entries := Under([k], DiffKey(At(prior, k), update[k]));
            && (p in after <==> p in before || p in entries)
            && (p in after ==> after[p] == if p in entries then entries[p] else before[p])
  {
    DiffAt(prior, Restrict(update, done), p);
    DiffAt(prior, Restrict(update, done + {k}), p);
    UnderAt([k], DiffKey(At(prior, k), update[k]), p);
    assert [k] <= p <==> p != [] && p[0] == k;
  }

  // ---- Flat keys ----

  /** The flat key of a path. */
  function Dotted(p: Path): string
    requires p != []
  {
    if |p| == 1 then p[0] else p[0] + "." + Dotted(p[1..])
  }

  predicate NoDots(p: Path) {
    forall i :: 0 <= i < |p| ==> '.' !in p[i]
  }

  lemma {:induction false} SplitAtDot(a: string, x: string, b: string, y: string)
    requires '.' !in a && '.' !in b && a + "." + x == b + "." + y
    ensures a == b && x == y
  {
    var s := a + "." + x;
    assert s[|a|] == '.' && s[|b|] == '.';
    assert forall i :: 0 <= i < |a| ==> s[i] == a[i];
    assert forall i :: 0 <= i < |b| ==> s[i] == b[i];
    assert |a| == |b|;
    assert s[..|a|] == a && s[..|b|] == b && s[|a| + 1..] == x && s[|b| + 1..] == y;
  }

  lemma {:induction false} DotInside(p: Path)
    requires |p| > 1
    ensures '.' in Dotted(p)
  {
    assert Dotted(p)[|p[0]|] == '.';
  }

  /** As long as no key holds a dot, two paths never share a flat key. */
  lemma {:induction false} FlatKeysAreFaithful(p: Path, q: Path)
    requires p != [] && q != [] && NoDots(p) && NoDots(q) && Dotted(p) == Dotted(q)
    ensures p == q
    decreases |p|
  {
    assert '.' !in p[0] && '.' !in q[0];
    if |p| > 1 && |q| > 1 {
      SplitAtDot(p[0], Dotted(p[1..]), q[0], Dotted(q[1..]));
      FlatKeysAreFaithful(p[1..], q[1..]);
      assert p == [p[0]] + p[1..] && q == [q[0]] + q[1..];
    } else if |p| > 1 {
      DotInside(p);
    } else if |q| > 1 {
      DotInside(q);
    }
  }
}
