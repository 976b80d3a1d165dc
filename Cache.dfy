/** The ordering step of `create_cache`: every route's list is sorted in
    place with `list.sort(key=lambda tup: tup[1])`. Python's sort is
    stable, and it computes the key of every element before it moves any;
    the key of an invalid-flight marker (a dict without key 1) raises
    `KeyError`, which leaves that list as it was and escapes, so the
    routes after it are never sorted. */
module Cache {
  import opened RouteKeys
  import opened Fares
  import Json

  /** Non-decreasing by price. */
  predicate SortedByPrice(s: seq<Entry>)
    requires AllObservations(s)
  {
    forall i, j :: 0 <= i < j < |s| ==> s[i].price <= s[j].price
  }

  /** The observations of `s` that carry price `p`, in their order in `s`. */
  function PricedAt(s: seq<Entry>, p: int): seq<Entry>
    requires AllObservations(s)
  {
    if s == [] then []
    else (if s[0].price == p then [s[0]] else []) + PricedAt(s[1..], p)
  }

  /** Places `x` before the first element whose price is not below its own. */
  function Insert(x: Entry, s: seq<Entry>): (r: seq<Entry>)
    requires x.Observation? && AllObservations(s)
    ensures AllObservations(r)
    ensures |r| == |s| + 1
  {
    if s == [] || x.price <= s[0].price then [x] + s
    else [s[0]] + Insert(x, s[1..])
  }

  /** The stable sort by price that `list.sort(key=lambda tup: tup[1])`
      performs on a list of `(date, price)` pairs. */
  function SortByPrice(s: seq<Entry>): (r: seq<Entry>)
    requires AllObservations(s)
    ensures AllObservations(r)
    ensures |r| == |s|
  {
    if s == [] then []
    else Insert(s[0], SortByPrice(s[1..]))
  }

  lemma {:induction false} InsertPermutes(x: Entry, s: seq<Entry>)
    requires x.Observation? && AllObservations(s)
    ensures multiset(Insert(x, s)) == multiset(s) + multiset{x}
  {
    if s != [] && x.price > s[0].price {
      InsertPermutes(x, s[1..]);
      assert s == [s[0]] + s[1..];
    }
  }

  lemma {:induction false} InsertSorted(x: Entry, s: seq<Entry>)
    requires x.Observation? && AllObservations(s) && SortedByPrice(s)
    ensures SortedByPrice(Insert(x, s))
    ensures |Insert(x, s)| > 0 && (Insert(x, s)[0] == x || (s != [] && Insert(x, s)[0] == s[0]))
  {
    if s != [] && x.price > s[0].price {
      InsertSorted(x, s[1..]);
    }
  }

  /** The sorted list is non-decreasing by price and holds exactly the
      entries it was given. */
  lemma {:induction false} SortByPriceSorted(s: seq<Entry>)
    requires AllObservations(s)
    ensures SortedByPrice(SortByPrice(s))
    ensures multiset(SortByPrice(s)) == multiset(s)
  {
    if s != [] {
      SortByPriceSorted(s[1..]);
      InsertSorted(s[0], SortByPrice(s[1..]));
      InsertPermutes(s[0], SortByPrice(s[1..]));
      assert s == [s[0]] + s[1..];
    }
  }

  lemma {:induction false} InsertStable(x: Entry, s: seq<Entry>, p: int)
    requires x.Observation? && AllObservations(s)
    ensures PricedAt(Insert(x, s), p) == (if x.price == p then [x] else []) + PricedAt(s, p)
  {
    if s != [] && x.price > s[0].price {
      var t := Insert(x, s[1..]);
      var head := if s[0].price == p then [s[0]] else [];
      var xs := if x.price == p then [x] else [];
      calc {
        PricedAt(Insert(x, s), p);
      ==  { assert Insert(x, s) == [s[0]] + t; assert ([s[0]] + t)[1..] == t; }
        head + PricedAt(t, p);
      ==  { InsertStable(x, s[1..], p); }
        head + (xs + PricedAt(s[1..], p));
      ==  // `x` sorts after `s[0]`, so at most one of them has price `p`
          { assert head == [] || xs == []; }
        xs + (head + PricedAt(s[1..], p));
      }
    } else {
      assert ([x] + s)[1..] == s;
    }
  }

  /** The sort is stable: for every price, the entries with that price keep
      their relative order. */
  lemma {:induction false} SortByPriceStable(s: seq<Entry>, p: int)
    requires AllObservations(s)
    ensures PricedAt(SortByPrice(s), p) == PricedAt(s, p)
  {
    if s != [] {
      SortByPriceStable(s[1..], p);
      InsertStable(s[0], SortByPrice(s[1..]), p);
    }
  }

  /** A list already in price order is left as it is. */
  lemma {:induction false} SortByPriceKeepsSorted(s: seq<Entry>)
    requires AllObservations(s) && SortedByPrice(s)
    ensures SortByPrice(s) == s
  {
    if s != [] {
      SortByPriceKeepsSorted(s[1..]);
      assert s == [s[0]] + s[1..];
    }
  }

  /** Sorting twice gives the same list as sorting once. */
  lemma SortByPriceIdempotent(s: seq<Entry>)
    requires AllObservations(s)
    ensures SortByPrice(SortByPrice(s)) == SortByPrice(s)
  {
    SortByPriceSorted(s);
    SortByPriceKeepsSorted(SortByPrice(s));
  }

  /** Ordered by price, and by date among equal prices. */
  predicate ByPriceThenDay(s: seq<Entry>)
    requires AllObservations(s)
  {
    forall i, j :: 0 <= i < j < |s| ==>
      s[i].price < s[j].price || (s[i].price == s[j].price && s[i].day < s[j].day)
  }

  lemma {:induction false} InsertByPriceThenDay(x: Entry, s: seq<Entry>)
    requires x.Observation? && AllObservations(s) && ByPriceThenDay(s)
    requires forall i :: 0 <= i < |s| ==> x.day < s[i].day
    ensures ByPriceThenDay(Insert(x, s))
    ensures |Insert(x, s)| > 0 && (Insert(x, s)[0] == x || (s != [] && Insert(x, s)[0] == s[0]))
  {
    if s != [] && x.price > s[0].price {
      InsertByPriceThenDay(x, s[1..]);
    }
  }

  /** Sorting a list recorded in date order leaves equal prices in date
      order. */
  lemma {:induction false} SortKeepsDateOrder(s: seq<Entry>)
    requires AllObservations(s) && DaysIncreasing(s)
    ensures ByPriceThenDay(SortByPrice(s))
  {
    if s != [] {
      var rest := SortByPrice(s[1..]);
      SortKeepsDateOrder(s[1..]);
      SortByPriceSorted(s[1..]);
      forall i | 0 <= i < |rest| ensures s[0].day < rest[i].day {
        assert rest[i] in multiset(rest);
        assert rest[i] in s[1..];
      }
      InsertByPriceThenDay(s[0], rest);
    }
  }

  /** How `create_cache`'s sort loop ended: it ran over every list, or the
      key function raised `KeyError` on a marker in `route`'s list. */
  datatype CacheOutcome = CacheWritten | CacheKeyError(route: RouteKey)

  /** The position in `keys` of the first list holding a marker, or
      `|keys|` when there is none. */
  function FirstMarked(table: map<RouteKey, seq<Entry>>, keys: seq<RouteKey>): (n: nat)
    requires forall k :: k in keys ==> k in table
    ensures n <= |keys|
    ensures forall j :: 0 <= j < n ==> AllObservations(table[keys[j]])
    ensures n < |keys| ==> !AllObservations(table[keys[n]])
  {
    if keys == [] then 0
    else if !AllObservations(table[keys[0]]) then 0
    else 1 + FirstMarked(table, keys[1..])
  }

  /** The first marked list is the one after a marker-free prefix. */
  lemma {:induction false} FirstMarkedAt(table: map<RouteKey, seq<Entry>>, keys: seq<RouteKey>, n: nat)
    requires forall k :: k in keys ==> k in table
    requires n <= |keys|
    requires forall j :: 0 <= j < n ==> AllObservations(table[keys[j]])
    requires n < |keys| ==> !AllObservations(table[keys[n]])
    ensures FirstMarked(table, keys) == n
  {
    if n > 0 {
      assert AllObservations(table[keys[0]]);
      assert forall k :: k in keys[1..] ==> k in keys;
      FirstMarkedAt(table, keys[1..], n - 1);
    }
  }

  /** The effect of the sort loop over `keys`, the table's keys in
      iteration order: the lists before the first marked one are sorted,
      that list and every later one are untouched, and the outcome names
      the route whose key function failed. */
  predicate CacheStep(keys: seq<RouteKey>, before: map<RouteKey, seq<Entry>>,
                      after: map<RouteKey, seq<Entry>>, outcome: CacheOutcome): (r: bool)
    requires forall k :: k in keys <==> k in before
    ensures r ==> (outcome == CacheWritten <==> forall k :: k in keys ==> AllObservations(before[k]))
    ensures r && outcome.CacheKeyError? ==> outcome.route in keys && !AllObservations(before[outcome.route])
  {
    var n := FirstMarked(before, keys);
    after.Keys == before.Keys &&
    outcome == (if n < |keys| then CacheKeyError(keys[n]) else CacheWritten) &&
    (forall j :: 0 <= j < n ==> after[keys[j]] == SortByPrice(before[keys[j]])) &&
    (forall j :: n <= j < |keys| ==> after[keys[j]] == before[keys[j]])
  }

  /** Once a marker is appended to `key`'s list, the sort fails at that
      route or at an earlier one: the cache is never written. */
  lemma MarkerBlocksCache(table: map<RouteKey, seq<Entry>>, keys: seq<RouteKey>, key: RouteKey, v: Json.Value)
    requires forall k :: k in keys ==> k in table
    requires key in keys
    ensures var marked := table[key := table[key] + [InvalidMarker(v)]];
      FirstMarked(marked, keys) < |keys| &&
      forall j :: 0 <= j < |keys| && keys[j] == key ==> FirstMarked(marked, keys) <= j
  {
    var marked := table[key := table[key] + [InvalidMarker(v)]];
    var extended := table[key] + [InvalidMarker(v)];
    assert !AllObservations(extended) by {
      assert extended[|extended| - 1].InvalidMarker?;
    }
    forall j | 0 <= j < |keys| && keys[j] == key
      ensures FirstMarked(marked, keys) <= j
    {
      assert marked[keys[j]] == extended;
    }
  }

  /** Sorting the list of `keys[r]`, when the lists before it are sorted
      and it and the later ones are untouched, extends the sorted prefix by
      one. */
  lemma SortedPrefixStep(keys: seq<RouteKey>, before: map<RouteKey, seq<Entry>>,
                         cur: map<RouteKey, seq<Entry>>, r: nat)
    requires Distinct(keys) && r < |keys|
    requires forall k :: k in keys ==> k in before
    requires cur.Keys == before.Keys && AllObservations(cur[keys[r]])
    requires forall j :: 0 <= j < r ==> AllObservations(before[keys[j]])
    requires forall j :: 0 <= j < r ==> cur[keys[j]] == SortByPrice(before[keys[j]])
    requires forall j :: r <= j < |keys| ==> cur[keys[j]] == before[keys[j]]
    ensures var next := cur[keys[r] := SortByPrice(cur[keys[r]])];
      next.Keys == before.Keys &&
      (forall j :: 0 <= j <= r ==> AllObservations(before[keys[j]])) &&
      (forall j :: 0 <= j <= r ==> next[keys[j]] == SortByPrice(before[keys[j]])) &&
      (forall j :: r < j < |keys| ==> next[keys[j]] == before[keys[j]])
  {
    var next := cur[keys[r] := SortByPrice(cur[keys[r]])];
    forall j | 0 <= j < |keys| && j != r
      ensures next[keys[j]] == cur[keys[j]]
    {
      assert keys[j] != keys[r];
    }
  }

  /** A loop that sorted the lists of `keys[..n]` and stopped at `n`, the
      end or the first marked list, performed the cache step. */
  lemma CacheStepAt(keys: seq<RouteKey>, before: map<RouteKey, seq<Entry>>,
                    after: map<RouteKey, seq<Entry>>, n: nat)
    requires forall k :: k in keys <==> k in before
    requires after.Keys == before.Keys && n <= |keys|
    requires forall j :: 0 <= j < n ==> AllObservations(before[keys[j]])
    requires forall j :: 0 <= j < n ==> after[keys[j]] == SortByPrice(before[keys[j]])
    requires forall j :: n <= j < |keys| ==> after[keys[j]] == before[keys[j]]
    requires n < |keys| ==> !AllObservations(before[keys[n]])
    ensures CacheStep(keys, before, after, if n < |keys| then CacheKeyError(keys[n]) else CacheWritten)
  {
    FirstMarkedAt(before, keys, n);
  }

  /** A table with no marker is sorted in full: the sort loop runs over
      every list without `KeyError`. */
  lemma CleanTableSortsFully(keys: seq<RouteKey>, before: map<RouteKey, seq<Entry>>,
                           after: map<RouteKey, seq<Entry>>, outcome: CacheOutcome)
    requires forall k :: k in keys <==> k in before
    requires forall k :: k in keys ==> AllObservations(before[k])
    requires CacheStep(keys, before, after, outcome)
    ensures outcome == CacheWritten
    ensures forall j :: 0 <= j < |keys| ==> after[keys[j]] == SortByPrice(before[keys[j]])
  {
    FirstMarkedAt(before, keys, |keys|);
  }
}
