/** The in-memory state task.py mutates: `route_dict` (route key to its
    list of entries) and `booking_token_list`, with the operations that
    change them in place: `add_data`, the collection loop of
    `get_data_from_api`, the sort loop of `create_cache` and the token loop
    of `check_valid_ticket`. */
module Store {
  import opened Json
  import opened RouteKeys
  import opened Fares
  import opened Cache
  import opened Validation

  /** How a validation pass ended. */
  datatype PassOutcome =
    | Finished                                // every token was answered by a refresh
    | Revalidating(at: nat)                   // token `at` was unconfirmed: the pass re-enters itself
    | Aborted(at: nat, failedRoute: RouteKey) // token `at` was invalid: the cache sort raised KeyError

  class FareStore {
    /** The dictionary's keys in insertion order, which is the order Python
        iterates them. */
    const keys: seq<RouteKey>
    var routeDict: map<RouteKey, seq<Entry>>
    var bookingTokens: seq<BookingRef>

    /** The table has exactly the listed keys, each once, and every booking
        reference names one of them. */
    ghost predicate Valid()
      reads this
    {
      Distinct(keys) &&
      (forall k :: k in routeDict <==> k in keys) &&
      RoutesIn(bookingTokens, keys)
    }

    /** The dictionary literal with an empty list per route, and the empty
        token list. */
    constructor Empty(routes: seq<RouteKey>)
      requires Distinct(routes)
      ensures Valid() && keys == routes
      ensures forall k :: k in routes ==> routeDict[k] == []
      ensures bookingTokens == []
    {
      keys := routes;
      routeDict := map k | k in routes :: [];
      bookingTokens := [];
    }

    /** The route-by-date loop of `get_data_from_api` over this table's
        keys, with the pricing API as a parameter. Every answered day adds
        one observation and one booking reference; an empty answer is
        skipped. */
    method Collect(api: PricingApi)
      requires Valid() && AllWellFormed(keys)
      requires forall k :: k in keys ==> routeDict[k] == []
      requires bookingTokens == []
      modifies this
      ensures Valid()
      ensures routeDict == CollectedTable(api, keys)
      ensures bookingTokens == CollectedTokens(api, keys)
    {
      assert keys[..0] == [];
      for r := 0 to |keys|
        invariant Scanned(api, r)
      {
        ScanNext(api, r);
      }
      assert keys[..|keys|] == keys;
      CollectedTableIs(api, keys, routeDict);
    }

    /** The state of the route loop after its first `r` keys: their lists
        hold their series, the later lists are still empty, and the token
        list holds their references in scan order. */
    ghost predicate Scanned(api: PricingApi, r: nat)
      reads this
    {
      r <= |keys| && AllWellFormed(keys) && Distinct(keys) &&
      (forall k :: k in routeDict <==> k in keys) && RoutesIn(bookingTokens, keys) &&
      (forall j :: 0 <= j < r ==> routeDict[keys[j]] == Series(api, keys[j], Window)) &&
      (forall j :: r <= j < |keys| ==> routeDict[keys[j]] == []) &&
      bookingTokens == CollectedTokens(api, keys[..r])
    }

    /** One iteration of the route loop: scans the days of `keys[r]`. */
    method ScanNext(api: PricingApi, r: nat)
      requires r < |keys| && Scanned(api, r)
      modifies this
      ensures Scanned(api, r + 1)
    {
      ghost var before, tokensBefore := routeDict, bookingTokens;
      CollectRoute(api, keys[r]);
      CollectedRouteStep(api, keys, r, before, tokensBefore, routeDict, bookingTokens);
    }

    /** The inner loop of `get_data_from_api`: the 32 days of one route, in
        order, querying with origin and destination swapped. */
    method CollectRoute(api: PricingApi, key: RouteKey)
      requires key in routeDict && WellFormed(key) && routeDict[key] == []
      modifies this
      ensures routeDict == old(routeDict)[key := Series(api, key, Window)]
      ensures bookingTokens == old(bookingTokens) + TokenSeries(api, key, Window)
    {
      for day := 0 to Window
        invariant routeDict == old(routeDict)[key := Series(api, key, day)]
        invariant bookingTokens == old(bookingTokens) + TokenSeries(api, key, day)
      {
        CollectDay(api, key, day);
        assert bookingTokens == old(bookingTokens) + (TokenSeries(api, key, day) + DayTokens(api, key, day));
      }
    }

    /** The body of the inner loop: one query for `key` on `day`, with
        origin and destination swapped; an empty answer is skipped,
        otherwise `add_data` records its first offer. */
    method CollectDay(api: PricingApi, key: RouteKey, day: Day)
      requires key in routeDict && WellFormed(key)
      modifies this
      ensures routeDict == old(routeDict)[key := old(routeDict)[key] + DayEntries(api, key, day)]
      ensures bookingTokens == old(bookingTokens) + DayTokens(api, key, day)
    {
      var response := api(BuildQuery(key, day));
      assert response == Response(api, key, day);
      if |response| == 0 {
        assert old(routeDict)[key] + [] == old(routeDict)[key];
        assert bookingTokens + [] == bookingTokens;
        return;
      }
      AddData(response, day, key);
    }

    /** `add_data`: appends the day and the first offer's price to `key`'s
        list, and the route with the first offer's booking token to the
        token list. */
    method AddData(offers: seq<Offer>, useDate: Day, key: RouteKey)
      requires key in routeDict && |offers| > 0
      modifies this
      ensures routeDict == old(routeDict)[key := old(routeDict)[key] + [Observation(useDate, offers[0].price)]]
      ensures bookingTokens == old(bookingTokens) + [BookingRef(key, offers[0].bookingToken)]
      ensures old(Valid()) ==> Valid()
    {
      routeDict := routeDict[key := routeDict[key] + [Observation(useDate, offers[0].price)]];
      bookingTokens := bookingTokens + [BookingRef(key, offers[0].bookingToken)];
    }

    /** The sort loop of `create_cache`, over the routes in dictionary
        order. A list holding a marker stops the loop with `KeyError`. */
    method CreateCache() returns (outcome: CacheOutcome)
      requires Valid()
      modifies this`routeDict
      ensures Valid()
      ensures CacheStep(keys, old(routeDict), routeDict, outcome)
    {
      ghost var before := routeDict;
      var r := 0;
      // `sort` first applies the key function to every element of the
      // list; on a marker that raises, before anything has moved.
      while r < |keys| && AllObservations(routeDict[keys[r]])
        invariant r <= |keys| && routeDict.Keys == before.Keys
        invariant forall j :: 0 <= j < r ==> AllObservations(before[keys[j]])
        invariant forall j :: 0 <= j < r ==> routeDict[keys[j]] == SortByPrice(before[keys[j]])
        invariant forall j :: r <= j < |keys| ==> routeDict[keys[j]] == before[keys[j]]
      {
        SortedPrefixStep(keys, before, routeDict, r);
        routeDict := routeDict[keys[r] := SortByPrice(routeDict[keys[r]])];
        r := r + 1;
      }
      CacheStepAt(keys, before, routeDict, r);
      outcome := if r < |keys| then CacheKeyError(keys[r]) else CacheWritten;
    }

    /** One pass of `check_valid_ticket` over the booking references. The
        recursive re-entry and the fresh collection pass are not performed:
        a refresh leaves this table alone and the loop goes on; an
        unconfirmed token ends the pass with `Revalidating`; an invalid one
        appends a marker to its route and runs the cache sort, which fails. */
    method CheckValidTickets(check: CheckApi) returns (outcome: PassOutcome)
      requires Valid()
      modifies this`routeDict
      ensures Valid()
      ensures var stop := FirstStop(bookingTokens, check);
        stop == |bookingTokens| ==> outcome == Finished && routeDict == old(routeDict)
      ensures var stop := FirstStop(bookingTokens, check);
        stop < |bookingTokens| && Decide(check(bookingTokens[stop].token)) == Revalidate ==>
          outcome == Revalidating(stop) && routeDict == old(routeDict)
      ensures var stop := FirstStop(bookingTokens, check);
        stop < |bookingTokens| && Decide(check(bookingTokens[stop].token)).MarkInvalid? ==>
          var ref := bookingTokens[stop];
          var marker := InvalidMarker(Decide(check(ref.token)).flightsInvalid);
          var marked := old(routeDict)[ref.route := old(routeDict)[ref.route] + [marker]];
          outcome.Aborted? && outcome.at == stop &&
          CacheStep(keys, marked, routeDict, CacheKeyError(outcome.failedRoute))
    {
      var i := 0;
      while i < |bookingTokens|
        invariant i <= FirstStop(bookingTokens, check)
        invariant routeDict == old(routeDict)
      {
        var ref := bookingTokens[i];
        var response := check(ref.token);
        match Decide(response) {
          case MarkInvalid(flightsInvalid) =>
            routeDict := routeDict[ref.route := routeDict[ref.route] + [InvalidMarker(flightsInvalid)]];
            MarkerBlocksCache(old(routeDict), keys, ref.route, flightsInvalid);
            var cached := CreateCache();
            return Aborted(i, cached.route);
          case Revalidate =>
            return Revalidating(i);
          case Refresh =>
          case NoAction =>
        }
        i := i + 1;
      }
      return Finished;
    }
  }

  /** `get_data_from_api`: the dictionary literal of the ten routes, then
      the collection loop over its keys. */
  method GetDataFromApi(api: PricingApi) returns (store: FareStore)
    ensures fresh(store) && store.Valid() && store.keys == Routes
    ensures AllWellFormed(store.keys)
    ensures store.routeDict == CollectedTable(api, store.keys)
    ensures store.bookingTokens == CollectedTokens(api, store.keys)
  {
    RoutesWellFormed();
    RoutesDistinct();
    store := new FareStore.Empty(Routes);
    store.Collect(api);
  }

  /** The refresh branch of `check_valid_ticket`: a new collection pass
      followed by `create_cache`'s sort loop, which runs over every list
      without `KeyError` because fresh data holds no marker. The caller's
      table is not touched. */
  method Refresh(api: PricingApi) returns (update: FareStore, outcome: CacheOutcome)
    ensures fresh(update) && update.Valid() && update.keys == Routes
    ensures AllWellFormed(update.keys)
    ensures outcome == CacheWritten
    ensures forall j :: 0 <= j < |update.keys| ==>
      var k := update.keys[j];
      AllObservations(CollectedTable(api, update.keys)[k]) &&
      update.routeDict[k] == SortByPrice(CollectedTable(api, update.keys)[k])
    ensures update.bookingTokens == CollectedTokens(api, update.keys)
  {
    update := GetDataFromApi(api);
    ghost var table := update.routeDict;
    CollectedTableShape(api, update.keys);
    outcome := update.CreateCache();
    CleanTableSortsFully(update.keys, table, update.routeDict, outcome);
  }
}
