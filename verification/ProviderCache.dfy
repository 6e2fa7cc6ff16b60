/** The bounded cache of embedding providers, kept in order of use, whose hits skip validation. */
module ProviderCache {
  import opened Common
  import opened Recency

  /** The client configuration that keys the cache. */
  datatype Key = Key(apiKey: string, model: string, baseUrl: Option<string>, sendDimensions: bool,
                     instruction: Option<string>, truncate: Option<int>)

  /** A tenant's request with a key, and the environment it is read with; `None` is a value that does not parse. */
  datatype Request = Request(apiKey: string, model: string, baseUrl: Option<string>, sendDimensions: Option<bool>,
                             instruction: Option<string>, truncate: Option<Option<int>>)

  datatype Problem = BadSendDimensions | BadTruncate | UrlWithDimensions | NoUrlNoDimensions | WrongDimension

  datatype Outcome = Ok(provider: Provider) | Raised(problem: Problem)

  /** A provider, told apart by its place in the order of construction. */
  datatype Provider = Provider(id: nat, key: Key)

  datatype Item = Item(key: Key, provider: Provider)

  /** The ordered dictionary, every provider ever built, and what happened to evicted ones. */
  datatype Cache = Cache(items: seq<Item>, built: seq<Provider>, closing: seq<Provider>, dropped: seq<Provider>)

  const MAX: nat := 256
  const VECTOR_DIM := 1024

  const EMPTY := Cache([], [], [], [])

  // ---- Validation ----

  function Parse(r: Request): Option<Problem> {
    if r.sendDimensions.None? then Some(BadSendDimensions)
    else if r.truncate.None? then Some(BadTruncate)
    else None
  }

  function KeyOf(r: Request): Key
    requires Parse(r).None?
  {
    Key(r.apiKey, r.model, r.baseUrl, r.sendDimensions.value, r.instruction, r.truncate.value)
  }

  /** The checks on the parsed configuration. */
  function Check(k: Key): Option<Problem> {
    if k.baseUrl.Some? && k.sendDimensions then Some(UrlWithDimensions)
    else if k.baseUrl.None? && !k.sendDimensions then Some(NoUrlNoDimensions)
    else if k.truncate.Some? && k.truncate.value != VECTOR_DIM then Some(WrongDimension)
    else None
  }

  /** Validation of a request from scratch, without a cache. */
  function Validate(r: Request): Option<Problem> {
    if Parse(r).Some? then Parse(r) else Check(KeyOf(r))
  }

  // ---- The ordered dictionary ----

  function Keys(items: seq<Item>): seq<Key> {
    seq(|items|, i requires 0 <= i < |items| => items[i].key)
  }

  function Providers(items: seq<Item>): seq<Provider> {
    seq(|items|, i requires 0 <= i < |items| => items[i].provider)
  }

  /** The place of a key, or the length if it is absent. */
  function Find(items: seq<Item>, k: Key): (i: nat)
    ensures i <= |items| && (i < |items| ==> items[i].key == k)
    ensures i == |items| ==> forall j :: 0 <= j < |items| ==> items[j].key != k
  {
    if items == [] then 0
    else if items[0].key == k then 0
    else 1 + Find(items[1..], k)
  }

  function MoveToEnd(items: seq<Item>, i: nat): seq<Item>
    requires i < |items|
  {
    items[..i] + items[i + 1..] + [items[i]]
  }

  function Build(c: Cache, k: Key): Provider {
    Provider(|c.built|, k)
  }

  /** An insertion before any eviction. */
  function Added(c: Cache, k: Key): Cache {
    c.(items := c.items + [Item(k, Build(c, k))], built := c.built + [Build(c, k)])
  }

  function Evict(c: Cache, looping: bool): Cache
    requires c.items != []
  {
    var out := c.items[0].provider;
    if looping then c.(items := c.items[1..], closing := c.closing + [out])
    else c.(items := c.items[1..], dropped := c.dropped + [out])
  }

  /** Insertion of a new provider; the oldest goes when there are too many, and is closed if an event loop runs. */
  function Insert(c: Cache, k: Key, looping: bool): Cache {
    var d := Added(c, k);
    if |d.items| > MAX then Evict(d, looping) else d
  }

  function GetOrCreate(c: Cache, k: Key, looping: bool): (Cache, Provider) {
    var i := Find(c.items, k);
    if i < |c.items| then (c.(items := MoveToEnd(c.items, i)), c.items[i].provider)
    else (Insert(c, k, looping), Build(c, k))
  }

  /** A request: parsing always, validation only on a miss. */
  function Get(c: Cache, r: Request, looping: bool): (Cache, Outcome) {
    if Parse(r).Some? then (c, Raised(Parse(r).value))
    else
      var i := Find(c.items, KeyOf(r));
      if i < |c.items| then (c.(items := MoveToEnd(c.items, i)), Ok(c.items[i].provider))
      else if Check(KeyOf(r)).Some? then (c, Raised(Check(KeyOf(r)).value))
      else var (d, p) := GetOrCreate(c, KeyOf(r), looping); (d, Ok(p))
  }

  datatype Call = Call(request: Request, looping: bool)

  function Run(calls: seq<Call>): Cache {
    if calls == [] then EMPTY
    else Get(Run(calls[..|calls| - 1]), calls[|calls| - 1].request, calls[|calls| - 1].looping).0
  }

  // ---- Reference: recency ----

  /** The keys of the requests that validate, in the order of the calls. */
  function Uses(calls: seq<Call>): seq<Key> {
    if calls == [] then []
    else
      var r := calls[|calls| - 1].request;
      Uses(calls[..|calls| - 1]) + if Validate(r).None? then [KeyOf(r)] else []
  }

  // ---- The invariant of every history ----

  ghost predicate Sane(c: Cache) {
    && Distinct(Keys(c.items))
    && (forall i :: 0 <= i < |c.items| ==> c.items[i].provider.key == c.items[i].key && Check(c.items[i].key).None?)
    && (forall i :: 0 <= i < |c.built| ==> c.built[i].id == i)
    && multiset(c.built) == multiset(Providers(c.items)) + multiset(c.closing) + multiset(c.dropped)
  }

  lemma {:induction false} MoveKeeps(c: Cache, i: nat)
    requires Sane(c) && i < |c.items|
    ensures Sane(c.(items := MoveToEnd(c.items, i)))
    ensures Keys(MoveToEnd(c.items, i)) == Without(Keys(c.items), c.items[i].key) + [c.items[i].key]
  {
    MoveKeys(c.items, i);
    TakeOut(Keys(c.items), c.items[i].key);
    MoveProviders(c.items, i);
  }

  lemma {:induction false} MoveKeys(items: seq<Item>, i: nat)
    requires i < |items| && Distinct(Keys(items))
    ensures Keys(MoveToEnd(items, i)) == Without(Keys(items), items[i].key) + [items[i].key]
  {
    DistinctOnce(Keys(items), i);
    WithoutOnce(Keys(items), i);
  }

  lemma {:induction false} MoveProviders(items: seq<Item>, i: nat)
    requires i < |items|
    ensures multiset(Providers(MoveToEnd(items, i))) == multiset(Providers(items))
  {
    var s, p := Providers(items), items[i].provider;
    assert s == s[..i] + [p] + s[i + 1..];
    assert Providers(MoveToEnd(items, i)) == s[..i] + s[i + 1..] + [p];
  }

  /** Moving the first of `a` to the end of `b` keeps what the two hold together. */
  lemma {:induction false} HandOver(a: seq<Provider>, b: seq<Provider>)
    requires a != []
    ensures multiset(a) + multiset(b) == multiset(a[1..]) + multiset(b + [a[0]])
  {
    assert a == [a[0]] + a[1..];
  }

  lemma {:induction false} AddedKeeps(c: Cache, k: Key)
    requires Sane(c) && Check(k).None? && k !in Keys(c.items)
    ensures Sane(Added(c, k)) && Keys(Added(c, k).items) == Keys(c.items) + [k]
  {
    var p := Build(c, k);
    assert Keys(Added(c, k).items) == Keys(c.items) + [k];
    assert Providers(Added(c, k).items) == Providers(c.items) + [p];
  }

  lemma {:induction false} EvictKeeps(c: Cache, looping: bool)
    requires Sane(c) && c.items != []
    ensures Sane(Evict(c, looping)) && Keys(Evict(c, looping).items) == Keys(c.items)[1..]
  {
    var all := Providers(c.items);
    assert Keys(c.items[1..]) == Keys(c.items)[1..];
    assert Providers(c.items[1..]) == all[1..] && all[0] == c.items[0].provider;
    if looping {
      HandOver(all, c.closing);
    } else {
      HandOver(all, c.dropped);
      assert multiset(c.built) == multiset(all) + multiset(c.dropped) + multiset(c.closing);
    }
  }

  lemma {:induction false} FindIsMembership(items: seq<Item>, k: Key)
    ensures Find(items, k) < |items| <==> k in Keys(items)
  {
    if Find(items, k) < |items| {
      assert Keys(items)[Find(items, k)] == k;
    }
  }

  lemma {:induction false} InsertKeeps(c: Cache, k: Key, looping: bool)
    requires Sane(c) && Check(k).None? && k !in Keys(c.items) && |c.items| <= MAX
    ensures var d := Insert(c, k, looping);
            Sane(d) && Keys(d.items) == if |c.items| < MAX then Keys(c.items) + [k] else Keys(c.items)[1..] + [k]
  {
    AddedKeeps(c, k);
    if |c.items| == MAX {
      EvictKeeps(Added(c, k), looping);
      assert (Keys(c.items) + [k])[1..] == Keys(c.items)[1..] + [k];
    }
  }

  /** A valid request makes its key the newest. */
  lemma {:induction false} UseKeeps(c: Cache, k: Key, looping: bool, recent: seq<Key>)
    requires Sane(c) && Check(k).None? && Distinct(recent) && Keys(c.items) == Newest(recent, MAX)
    ensures var d := GetOrCreate(c, k, looping).0;
            Sane(d) && Keys(d.items) == Newest(Without(recent, k) + [k], MAX)
  {
    FindIsMembership(c.items, k);
    NewestStep(recent, k, MAX);
    assert |c.items| == |Keys(c.items)|;
    var i := Find(c.items, k);
    if i < |c.items| { MoveKeeps(c, i); } else { InsertKeeps(c, k, looping); }
  }

  lemma {:induction false} CallKeeps(c: Cache, r: Request, looping: bool, recent: seq<Key>)
    requires Sane(c) && Distinct(recent) && Keys(c.items) == Newest(recent, MAX)
    ensures Sane(Get(c, r, looping).0)
    ensures Keys(Get(c, r, looping).0.items) ==
            if Validate(r).None? then Newest(Without(recent, KeyOf(r)) + [KeyOf(r)], MAX) else Newest(recent, MAX)
    ensures Get(c, r, looping).1 == if Validate(r).Some? then Raised(Validate(r).value) else Ok(Served(c, KeyOf(r)))
  {
    if Parse(r).None? {
      if Check(KeyOf(r)).None? { UseKeeps(c, KeyOf(r), looping, recent); }
    }
  }

  /** The provider a valid request gets: the cached one for its key, else a new one. */
  function Served(c: Cache, k: Key): Provider {
    var i := Find(c.items, k);
    if i < |c.items| then c.items[i].provider else Build(c, k)
  }

  // ---- Theorems over every history ----

  /** The cache holds exactly the most recently used keys, in order of last use. */
  lemma {:induction false} HistoryKeeps(calls: seq<Call>)
    ensures Sane(Run(calls))
    ensures Keys(Run(calls).items) == Newest(Recent(Uses(calls)), MAX)
  {
    if calls == [] {
    } else {
      var init, call := calls[..|calls| - 1], calls[|calls| - 1];
      HistoryKeeps(init);
      RecentDistinct(Uses(init));
      CallKeeps(Run(init), call.request, call.looping, Recent(Uses(init)));
      if Validate(call.request).None? {
        assert Uses(calls)[..|Uses(calls)| - 1] == Uses(init);
      } else {
        assert Uses(calls) == Uses(init);
      }
    }
  }

  /** Skipping validation on a hit is invisible: a request fails exactly as validating it from scratch would. */
  lemma {:induction false} HitsNeedNoValidation(calls: seq<Call>, r: Request, looping: bool)
    ensures var out := Get(Run(calls), r, looping).1;
            if Validate(r).Some? then out == Raised(Validate(r).value)
            else out.Ok? && out.provider.key == KeyOf(r)
  {
    HistoryKeeps(calls);
    RecentDistinct(Uses(calls));
    CallKeeps(Run(calls), r, looping, Recent(Uses(calls)));
  }

  /** The environment parses. */
  predicate Parses(r: Request) {
    r.sendDimensions.Some? && r.truncate.Some?
  }

  /**
   Which requests are served: hosted OpenAI with dimensions or another endpoint without, and no
   truncation other than to 1024; otherwise which problem is reported.
   */
  lemma {:induction false} ServedIff(calls: seq<Call>, r: Request, looping: bool)
    ensures var out := Get(Run(calls), r, looping).1;
            && (out.Ok? <==> Parses(r) && (r.baseUrl.None? <==> r.sendDimensions.value)
                             && r.truncate.value in {None, Some(1024)})
            && (out == Raised(BadSendDimensions) <==> r.sendDimensions.None?)
            && (out == Raised(BadTruncate) <==> r.sendDimensions.Some? && r.truncate.None?)
            && (out == Raised(UrlWithDimensions) <==> Parses(r) && r.baseUrl.Some? && r.sendDimensions.value)
            && (out == Raised(NoUrlNoDimensions) <==> Parses(r) && r.baseUrl.None? && !r.sendDimensions.value)
  {
    HitsNeedNoValidation(calls, r, looping);
  }

  /** A served request gets a provider of its own configuration, so two different ones never share. */
  lemma {:induction false} ServedItsOwn(calls: seq<Call>, r: Request, looping: bool)
    requires Get(Run(calls), r, looping).1.Ok?
    ensures var k := Get(Run(calls), r, looping).1.provider.key;
            && k.apiKey == r.apiKey && k.model == r.model && k.baseUrl == r.baseUrl
            && k.instruction == r.instruction && Some(k.sendDimensions) == r.sendDimensions
            && Some(k.truncate) == r.truncate
  {
    HitsNeedNoValidation(calls, r, looping);
  }

  /** A key is cached exactly if it was used and fewer than 256 other keys have been used since. */
  lemma {:induction false} CachedIff(calls: seq<Call>, k: Key)
    ensures k in Keys(Run(calls).items) <==> k in Uses(calls) && |UsedSince(Uses(calls), k)| < 256
    ensures |Run(calls).items| <= 256
    ensures ByLastUse(Keys(Run(calls).items), Uses(calls))
  {
    HistoryKeeps(calls);
    NewestIff(Uses(calls), k, MAX);
    RecentIsByLastUse(Uses(calls));
  }

  lemma {:induction false} OccursOnce(s: seq<Provider>, p: Provider)
    requires forall i :: 0 <= i < |s| ==> s[i].id == i
    ensures p in s ==> multiset(s)[p] == 1
  {
    if s == [] {
    } else {
      var init := s[..|s| - 1];
      OccursOnce(init, p);
      assert s == init + [s[|s| - 1]];
      if p == s[|s| - 1] {
        assert p !in multiset(init);
      }
    }
  }

  lemma {:induction false} NothingDropped(calls: seq<Call>)
    requires forall i :: 0 <= i < |calls| ==> calls[i].looping
    ensures Run(calls).dropped == []
  {
    if calls == [] {
    } else {
      NothingDropped(calls[..|calls| - 1]);
    }
  }

  /**
   Every provider ever built is in exactly one place: cached, scheduled once for close, or (outside
   a loop) dropped once.
   */
  lemma {:induction false} BuiltOnceKeptOnce(calls: seq<Call>, p: Provider)
    requires p in Run(calls).built
    ensures var c := Run(calls);
            multiset(Providers(c.items))[p] + multiset(c.closing)[p] + multiset(c.dropped)[p] == 1
    ensures (forall i :: 0 <= i < |calls| ==> calls[i].looping) ==>
              var c := Run(calls);
              multiset(Providers(c.items))[p] + multiset(c.closing)[p] == 1
  {
    HistoryKeeps(calls);
    OccursOnce(Run(calls).built, p);
    if forall i :: 0 <= i < |calls| ==> calls[i].looping { NothingDropped(calls); }
  }

  /** A cached configuration is served by the provider in the cache; any other valid one by exactly one new provider. */
  lemma {:induction false} HitsReuse(calls: seq<Call>, r: Request, looping: bool)
    requires Validate(r).None?
    ensures var c := Run(calls);
            var (d, out) := Get(c, r, looping);
            && out.Ok?
            && if KeyOf(r) in Keys(c.items) then out.provider in Providers(c.items) && d.built == c.built
               else d.built == c.built + [out.provider] && out.provider !in c.built
  {
    HitsNeedNoValidation(calls, r, looping);
    HistoryKeeps(calls);
    var c := Run(calls);
    FindIsMembership(c.items, KeyOf(r));
    var i := Find(c.items, KeyOf(r));
    if i < |c.items| { assert Providers(c.items)[i] == c.items[i].provider; }
  }

  /** Without a running event loop no close is ever scheduled. */
  lemma {:induction false} NothingClosedOutsideLoop(calls: seq<Call>)
    requires forall i :: 0 <= i < |calls| ==> !calls[i].looping
    ensures Run(calls).closing == []
  {
    if calls == [] {
    } else {
      NothingClosedOutsideLoop(calls[..|calls| - 1]);
    }
  }

  /** A provider handed out is the newest cached one, and has not been scheduled for close. */
  lemma {:induction false} ServedIsOpen(calls: seq<Call>, call: Call)
    requires Validate(call.request).None?
    ensures var c := Run(calls + [call]);
            && c.items != [] && Get(Run(calls), call.request, call.looping).1 == Ok(c.items[|c.items| - 1].provider)
            && c.items[|c.items| - 1].provider !in c.closing && c.items[|c.items| - 1].provider !in c.dropped
  {
    assert (calls + [call])[..|calls|] == calls;
    HistoryKeeps(calls + [call]);
    var c := Run(calls + [call]);
    HitsNeedNoValidation(calls, call.request, call.looping);
    ServedIsNewest(Run(calls), call.request, call.looping);
    CachedIsOpen(c, |c.items| - 1);
  }

  lemma {:induction false} ServedIsNewest(c: Cache, r: Request, looping: bool)
    requires Get(c, r, looping).1.Ok?
    ensures var d := Get(c, r, looping).0;
            d.items != [] && d.items[|d.items| - 1].provider == Get(c, r, looping).1.provider
  {
  }

  lemma {:induction false} CachedIsOpen(c: Cache, i: nat)
    requires Sane(c) && i < |c.items|
    ensures c.items[i].provider !in c.closing && c.items[i].provider !in c.dropped
  {
    var p := c.items[i].provider;
    assert Providers(c.items)[i] == p;
    assert multiset(Providers(c.items))[p] > 0;
    assert p in multiset(c.built);
    OccursOnce(c.built, p);
    assert multiset(c.closing)[p] == 0 && multiset(c.dropped)[p] == 0;
  }

  // ---- The module state ----

  class Registry {
    var items: seq<Item>
    var built: seq<Provider>
    var closing: seq<Provider>
    var dropped: seq<Provider>

    function State(): Cache
      reads this
    {
      Cache(items, built, closing, dropped)
    }

    constructor ()
      ensures State() == EMPTY
    {
      items, built, closing, dropped := [], [], [], [];
    }

    method Lookup(k: Key) returns (found: Option<Provider>)
      modifies this`items
      ensures found.Some? <==> k in Keys(old(items))
      ensures found.Some? ==>
                var i := Find(old(items), k);
                items == MoveToEnd(old(items), i) && found.value == old(items)[i].provider
      ensures found.None? ==> items == old(items) && Find(items, k) == |items|
    {
      var i := Find(items, k);
      assert forall j :: 0 <= j < |items| ==> Keys(items)[j] == items[j].key;
      if i < |items| {
        assert Keys(items)[i] == k;
        found := Some(items[i].provider);
        items := items[..i] + items[i + 1..] + [items[i]];
      } else {
        found := None;
      }
    }

    method GetOrCreateProvider(k: Key, looping: bool) returns (provider: Provider)
      modifies this
      ensures (State(), provider) == GetOrCreate(old(State()), k, looping)
    {
      var cached := Lookup(k);
      if cached.Some? { return cached.value; }
      provider := Provider(|built|, k);
      built := built + [provider];
      items := items + [Item(k, provider)];
      if |items| > MAX {
        var evicted := items[0].provider;
        items := items[1..];
        if looping {
          closing := closing + [evicted];
        } else {
          dropped := dropped + [evicted];
        }
      }
    }

    method GetProvider(r: Request, looping: bool) returns (out: Outcome)
      modifies this
      ensures (State(), out) == Get(old(State()), r, looping)
    {
      if Parse(r).Some? { return Raised(Parse(r).value); }
      var k := KeyOf(r);
      var cached := Lookup(k);
      if cached.Some? { return Ok(cached.value); }
      if k.baseUrl.Some? && k.sendDimensions { return Raised(UrlWithDimensions); }
      if k.baseUrl.None? && !k.sendDimensions { return Raised(NoUrlNoDimensions); }
      if k.truncate.Some? && k.truncate.value != VECTOR_DIM { return Raised(WrongDimension); }
      var provider := GetOrCreateProvider(k, looping);
      return Ok(provider);
    }
  }
}
