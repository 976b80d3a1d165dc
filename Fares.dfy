/** The pricing side of task.py: the search query built for one route and
    day, the entries a route's list holds, the booking references, and
    what one collection pass (`get_data_from_api`) produces, as functions
    of the pricing API's answers. */
module Fares {
  import opened Json
  import opened RouteKeys

  /** A search date, as an offset in days from the day of the pass. */
  type Day = nat
  type Token = string

  /** `amount_of_days`; the pass covers offsets 0 .. AmountOfDays. */
  const AmountOfDays: nat := 31
  const Window: nat := AmountOfDays + 1

  /** One element of the API's `data` list. */
  datatype Offer = Offer(price: int, bookingToken: Token)

  /** The search query's parameters (the URL string itself, and the date
      formatting, are not modelled). */
  datatype Query = Query(
    flyFrom: string, flyTo: string, dateFrom: Day,
    currency: string, adults: nat, children: nat, infants: nat,
    partner: string, version: nat)

  /** The pricing API: the `data` list answered for a query. */
  type PricingApi = Query -> seq<Offer>

  /** One entry of a route's list: a `(date, price)` observation, or the
      `{'flights_invalid': v}` marker the validator appends. */
  datatype Entry =
    | Observation(day: Day, price: int)
    | InvalidMarker(flightsInvalid: Value)

  /** A list holding `(date, price)` pairs only, no marker. */
  predicate AllObservations(s: seq<Entry>) {
    forall i :: 0 <= i < |s| ==> s[i].Observation?
  }

  /** Strictly increasing dates, the order in which a pass records them. */
  predicate DaysIncreasing(s: seq<Entry>)
    requires AllObservations(s)
  {
    forall i, j :: 0 <= i < j < |s| ==> s[i].day < s[j].day
  }

  /** One `(key, booking_token)` pair of `booking_token_list`. */
  datatype BookingRef = BookingRef(route: RouteKey, token: Token)

  /** The query for `key` on `day`: `fly_from` gets the second half of the
      key and `fly_to` the first, as task.py writes it: the key reads
      `fly_to`, the separator, then `fly_from`. */
  function BuildQuery(key: RouteKey, day: Day): (q: Query)
    requires WellFormed(key)
    ensures Separator !in q.flyFrom && Separator !in q.flyTo
    ensures var head := q.flyTo + [Separator] + q.flyFrom;
      head == key || head + [Separator] <= key
    ensures q.dateFrom == day && q.currency == "KZT"
    ensures q.adults == 1 && q.children == 0 && q.infants == 0
  {
    KeyStartsWithParts(key);
    var flyFrom := Origin(key);
    var flyTo := Destination(key);
    Query(flyFrom := flyTo, flyTo := flyFrom, dateFrom := day,
          currency := "KZT", adults := 1, children := 0, infants := 0,
          partner := "picky", version := 3)
  }

  /** For the key "A-B" the query asks for flights from B to A, on the
      given date, in tenge, for one adult. */
  lemma QueryReversesRoute(origin: string, destination: string, day: Day)
    requires Separator !in origin && Separator !in destination
    ensures var key := origin + [Separator] + destination;
      WellFormed(key) &&
      BuildQuery(key, day).flyFrom == destination &&
      BuildQuery(key, day).flyTo == origin &&
      BuildQuery(key, day).dateFrom == day &&
      BuildQuery(key, day).currency == "KZT" &&
      BuildQuery(key, day).adults == 1
  {
    KeyParts(origin, destination);
  }

  /** The offers answered for `key` on `day`. */
  function Response(api: PricingApi, key: RouteKey, day: Day): seq<Offer>
    requires WellFormed(key)
  {
    api(BuildQuery(key, day))
  }

  /** What one day adds to `key`'s list: nothing when the answer is empty,
      otherwise the day and the price of its first offer. */
  function DayEntries(api: PricingApi, key: RouteKey, day: Day): seq<Entry>
    requires WellFormed(key)
  {
    var offers := Response(api, key, day);
    if |offers| == 0 then [] else [Observation(day, offers[0].price)]
  }

  /** What one day adds to the booking references: the route and the
      booking token of the first offer, when there is one. */
  function DayTokens(api: PricingApi, key: RouteKey, day: Day): seq<BookingRef>
    requires WellFormed(key)
  {
    var offers := Response(api, key, day);
    if |offers| == 0 then [] else [BookingRef(key, offers[0].bookingToken)]
  }

  /** The observations a pass appends to `key`'s list over days 0 .. n-1:
      one per day whose answer is non-empty, taken from its first offer. */
  function Series(api: PricingApi, key: RouteKey, n: nat): seq<Entry>
    requires WellFormed(key)
  {
    if n == 0 then [] else Series(api, key, n - 1) + DayEntries(api, key, n - 1)
  }

  /** The booking references a pass appends while scanning `key` over days
      0 .. n-1. */
  function TokenSeries(api: PricingApi, key: RouteKey, n: nat): seq<BookingRef>
    requires WellFormed(key)
  {
    if n == 0 then [] else TokenSeries(api, key, n - 1) + DayTokens(api, key, n - 1)
  }

  /** Every booking reference names one of `keys`. */
  predicate RoutesIn(refs: seq<BookingRef>, keys: seq<RouteKey>) {
    forall i :: 0 <= i < |refs| ==> refs[i].route in keys
  }

  /** Every reference a route's scan produces names that route. */
  lemma {:induction false} TokenSeriesRoute(api: PricingApi, key: RouteKey, n: nat)
    requires WellFormed(key)
    ensures forall i :: 0 <= i < |TokenSeries(api, key, n)| ==> TokenSeries(api, key, n)[i].route == key
  {
    if n > 0 {
      TokenSeriesRoute(api, key, n - 1);
    }
  }

  /** Appending the scan of one of `keys` keeps every reference naming one
      of `keys`. */
  lemma RoutesInScan(api: PricingApi, refs: seq<BookingRef>, keys: seq<RouteKey>, key: RouteKey)
    requires WellFormed(key) && key in keys && RoutesIn(refs, keys)
    ensures RoutesIn(refs + TokenSeries(api, key, Window), keys)
  {
    var scan := TokenSeries(api, key, Window);
    TokenSeriesRoute(api, key, Window);
    forall i | 0 <= i < |refs + scan| ensures (refs + scan)[i].route in keys {
      if i >= |refs| {
        assert (refs + scan)[i] == scan[i - |refs|];
      }
    }
  }

  /** The whole `booking_token_list` after scanning `keys` in order. */
  function CollectedTokens(api: PricingApi, keys: seq<RouteKey>): seq<BookingRef>
    requires AllWellFormed(keys)
  {
    if keys == [] then []
    else CollectedTokens(api, keys[..|keys| - 1]) + TokenSeries(api, keys[|keys| - 1], Window)
  }

  /** Scanning one more key appends that key's references. */
  lemma CollectedTokensStep(api: PricingApi, keys: seq<RouteKey>, r: nat)
    requires AllWellFormed(keys) && r < |keys|
    ensures AllWellFormed(keys[..r]) && AllWellFormed(keys[..r + 1])
    ensures CollectedTokens(api, keys[..r + 1]) ==
      CollectedTokens(api, keys[..r]) + TokenSeries(api, keys[r], Window)
  {
    assert forall k :: k in keys[..r + 1] ==> k in keys;
    assert keys[..r + 1][..r] == keys[..r];
  }

  /** The whole `route_dict` after a pass over `keys`. */
  function CollectedTable(api: PricingApi, keys: seq<RouteKey>): map<RouteKey, seq<Entry>>
    requires AllWellFormed(keys)
  {
    map k | k in keys :: Series(api, k, Window)
  }

  /** A table holding, under exactly the keys of `keys`, each key's
      series is the collected table. */
  lemma CollectedTableIs(api: PricingApi, keys: seq<RouteKey>, table: map<RouteKey, seq<Entry>>)
    requires AllWellFormed(keys)
    requires forall k :: k in table <==> k in keys
    requires forall j :: 0 <= j < |keys| ==> table[keys[j]] == Series(api, keys[j], Window)
    ensures table == CollectedTable(api, keys)
  {
    forall k | k in keys
      ensures table[k] == Series(api, k, Window)
    {
      var j :| 0 <= j < |keys| && keys[j] == k;
    }
  }



  /** Storing the series of `keys[r]` in a table that holds the series of
      the keys before it, and an empty list for it and every later key,
      extends the stored prefix by one. */
  lemma CollectedPrefixStep(api: PricingApi, keys: seq<RouteKey>, r: nat,
                            before: map<RouteKey, seq<Entry>>, after: map<RouteKey, seq<Entry>>)
    requires AllWellFormed(keys) && Distinct(keys) && r < |keys|
    requires forall k :: k in keys ==> k in before
    requires after == before[keys[r] := Series(api, keys[r], Window)]
    requires forall j :: 0 <= j < r ==> before[keys[j]] == Series(api, keys[j], Window)
    requires forall j :: r < j < |keys| ==> before[keys[j]] == []
    ensures forall j :: 0 <= j < r + 1 ==> after[keys[j]] == Series(api, keys[j], Window)
    ensures forall j :: r + 1 <= j < |keys| ==> after[keys[j]] == []
  {
    forall j | 0 <= j < |keys| && j != r
      ensures after[keys[j]] == before[keys[j]]
    {
      assert keys[j] != keys[r];
    }
  }

  /** One step of the route loop: if the table held the series of the keys
      before `keys[r]` and an empty list for it and every later key, then
      storing its series and appending its references keeps the table's
      keys, the references naming those keys, and extends both the stored
      prefix and the collected references by one route. */
  lemma CollectedRouteStep(api: PricingApi, keys: seq<RouteKey>, r: nat,
                           table: map<RouteKey, seq<Entry>>, refs: seq<BookingRef>,
                           table': map<RouteKey, seq<Entry>>, refs': seq<BookingRef>)
    requires AllWellFormed(keys) && Distinct(keys) && r < |keys|
    requires forall k :: k in table <==> k in keys
    requires forall j :: 0 <= j < r ==> table[keys[j]] == Series(api, keys[j], Window)
    requires forall j :: r <= j < |keys| ==> table[keys[j]] == []
    requires RoutesIn(refs, keys) && refs == CollectedTokens(api, keys[..r])
    requires table' == table[keys[r] := Series(api, keys[r], Window)]
    requires refs' == refs + TokenSeries(api, keys[r], Window)
    ensures forall k :: k in table' <==> k in keys
    ensures forall j :: 0 <= j < r + 1 ==> table'[keys[j]] == Series(api, keys[j], Window)
    ensures forall j :: r + 1 <= j < |keys| ==> table'[keys[j]] == []
    ensures RoutesIn(refs', keys) && refs' == CollectedTokens(api, keys[..r + 1])
  {
    CollectedTokensStep(api, keys, r);
    CollectedPrefixStep(api, keys, r, table, table');
    RoutesInScan(api, refs, keys, keys[r]);
  }

  /** The days in 0 .. n-1 whose answer for `key` is non-empty. */
  function AnsweredDays(api: PricingApi, key: RouteKey, n: nat): set<Day>
    requires WellFormed(key)
  {
    set d: Day | d < n && |Response(api, key, d)| > 0
  }

  /** Each entry of a route's series is an observation of a day in the
      window whose answer was non-empty, carrying that answer's first price,
      and the i-th booking reference for the route comes from the same
      answer as the i-th observation. */
  lemma {:induction false} SeriesEntries(api: PricingApi, key: RouteKey, n: nat)
    requires WellFormed(key)
    ensures |Series(api, key, n)| == |TokenSeries(api, key, n)| <= n
    ensures forall i :: 0 <= i < |Series(api, key, n)| ==>
      var e := Series(api, key, n)[i];
      e.Observation? && e.day < n && |Response(api, key, e.day)| > 0 &&
      e.price == Response(api, key, e.day)[0].price &&
      TokenSeries(api, key, n)[i] == BookingRef(key, Response(api, key, e.day)[0].bookingToken)
  {
    if n > 0 {
      SeriesEntries(api, key, n - 1);
    }
  }

  /** Observations appear in strictly increasing day order. */
  lemma {:induction false} SeriesIncreasing(api: PricingApi, key: RouteKey, n: nat)
    requires WellFormed(key)
    ensures forall i, j :: 0 <= i < j < |Series(api, key, n)| ==>
      Series(api, key, n)[i].Observation? && Series(api, key, n)[j].Observation? &&
      Series(api, key, n)[i].day < Series(api, key, n)[j].day
  {
    if n > 0 {
      SeriesIncreasing(api, key, n - 1);
      SeriesEntries(api, key, n - 1);
      var prefix := Series(api, key, n - 1);
      var s := Series(api, key, n);
      assert s[..|prefix|] == prefix;
      forall i, j | 0 <= i < j < |s|
        ensures s[i].Observation? && s[j].Observation? && s[i].day < s[j].day
      {
        assert s[i] == prefix[i];
        if j < |prefix| {
          assert s[j] == prefix[j];
        } else {
          assert s[j].day == n - 1;
        }
      }
    } else {
      assert Series(api, key, n) == [];
    }
  }

  /** A route holds exactly as many observations as there were days with a
      non-empty answer. */
  lemma {:induction false} SeriesCountsAnsweredDays(api: PricingApi, key: RouteKey, n: nat)
    requires WellFormed(key)
    ensures |Series(api, key, n)| == |AnsweredDays(api, key, n)|
  {
    if n > 0 {
      SeriesCountsAnsweredDays(api, key, n - 1);
      AnsweredDaysStep(api, key, n);
    }
  }

  /** Day `n - 1` joins the answered days exactly when its answer is not
      empty. */
  lemma AnsweredDaysStep(api: PricingApi, key: RouteKey, n: nat)
    requires WellFormed(key) && n > 0
    ensures |AnsweredDays(api, key, n)| ==
      |AnsweredDays(api, key, n - 1)| + (if |Response(api, key, n - 1)| == 0 then 0 else 1)
  {
    var before := AnsweredDays(api, key, n - 1);
    var after := AnsweredDays(api, key, n);
    assert n - 1 !in before;
    if |Response(api, key, n - 1)| == 0 {
      assert forall d :: d in after <==> d in before;
      assert after == before;
    } else {
      assert forall d :: d in after <==> d in before || d == n - 1;
      assert after == before + {n - 1};
    }
  }

  /** Every answered day is recorded: some observation carries it. */
  lemma {:induction false} SeriesComplete(api: PricingApi, key: RouteKey, n: nat, d: Day)
    requires WellFormed(key)
    requires d < n && |Response(api, key, d)| > 0
    ensures Observation(d, Response(api, key, d)[0].price) in Series(api, key, n)
  {
    if d < n - 1 {
      SeriesComplete(api, key, n - 1, d);
    }
  }

  /** A day answered with an empty `data` list adds no observation and no
      booking reference, and no observation of the pass carries that day. */
  lemma SkippedDay(api: PricingApi, key: RouteKey, n: nat, d: Day)
    requires WellFormed(key)
    requires |Response(api, key, d)| == 0
    ensures Series(api, key, d + 1) == Series(api, key, d)
    ensures TokenSeries(api, key, d + 1) == TokenSeries(api, key, d)
    ensures forall i :: 0 <= i < |Series(api, key, n)| ==>
      Series(api, key, n)[i].Observation? && Series(api, key, n)[i].day != d
  {
    SeriesEntries(api, key, n);
  }

  /** The booking references of one route, in list order. */
  function TokensOf(refs: seq<BookingRef>, key: RouteKey): seq<BookingRef>
  {
    if refs == [] then []
    else
      var last := refs[|refs| - 1];
      TokensOf(refs[..|refs| - 1], key) + (if last.route == key then [last] else [])
  }

  /** The number of entries held under `keys` in `table`. */
  function TotalEntries(table: map<RouteKey, seq<Entry>>, keys: seq<RouteKey>): nat
    requires forall k :: k in keys ==> k in table
  {
    if keys == [] then 0
    else TotalEntries(table, keys[..|keys| - 1]) + |table[keys[|keys| - 1]]|
  }

  lemma {:induction false} TokensOfAppend(a: seq<BookingRef>, b: seq<BookingRef>, key: RouteKey)
    ensures TokensOf(a + b, key) == TokensOf(a, key) + TokensOf(b, key)
    decreases |b|
  {
    if b != [] {
      var b' := b[..|b| - 1];
      assert (a + b)[..|a + b| - 1] == a + b';
      TokensOfAppend(a, b', key);
    } else {
      assert a + b == a;
    }
  }

  /** A route's scan yields references to that route only. */
  lemma {:induction false} TokensOfSeries(api: PricingApi, scanned: RouteKey, key: RouteKey, n: nat)
    requires WellFormed(scanned)
    ensures TokensOf(TokenSeries(api, scanned, n), key) ==
      if key == scanned then TokenSeries(api, scanned, n) else []
  {
    if n > 0 {
      TokensOfSeries(api, scanned, key, n - 1);
      var day := DayTokens(api, scanned, n - 1);
      TokensOfAppend(TokenSeries(api, scanned, n - 1), day, key);
      assert TokensOf(day, key) == if key == scanned then day else [] by {
        if day != [] {
          assert day[..0] == [] && day[0].route == scanned;
        }
      }
    }
  }

  /** The token list holds exactly one reference per observation: its
      length is the number of entries across the routes of any table that
      holds each route's series. */
  lemma {:induction false} CollectedTokensCount(api: PricingApi, keys: seq<RouteKey>,
                                                table: map<RouteKey, seq<Entry>>)
    requires AllWellFormed(keys)
    requires forall k :: k in keys ==> k in table && table[k] == Series(api, k, Window)
    ensures |CollectedTokens(api, keys)| == TotalEntries(table, keys)
  {
    if keys != [] {
      var prefix := keys[..|keys| - 1];
      assert forall k :: k in prefix ==> k in keys;
      CollectedTokensCount(api, prefix, table);
      SeriesEntries(api, keys[|keys| - 1], Window);
    }
  }

  /** Filtered to one route, the token list is that route's own scan: the
      tokens of a route appear in date order, after the routes scanned
      before it. */
  lemma {:induction false} TokensOfCollected(api: PricingApi, keys: seq<RouteKey>, key: RouteKey)
    requires AllWellFormed(keys) && Distinct(keys)
    ensures TokensOf(CollectedTokens(api, keys), key) ==
      if key in keys then TokenSeries(api, key, Window) else []
  {
    if keys != [] {
      var n := |keys| - 1;
      var prefix, last := keys[..n], keys[n];
      CollectedTokensStep(api, keys, n);
      assert keys[..n + 1] == keys;
      var before, scan := CollectedTokens(api, prefix), TokenSeries(api, last, Window);
      assert CollectedTokens(api, keys) == before + scan;
      DistinctLast(keys);
      TokensOfCollected(api, prefix, key);
      TokensOfAppend(before, scan, key);
      TokensOfSeries(api, last, key, Window);
    }
  }

  /** After a full pass, the i-th booking reference of route `key` was taken
      from the same answer as the i-th observation in `key`'s list. */
  lemma TokenMatchesObservation(api: PricingApi, keys: seq<RouteKey>, key: RouteKey, i: nat)
    requires AllWellFormed(keys) && Distinct(keys) && key in keys
    requires i < |TokensOf(CollectedTokens(api, keys), key)|
    ensures |TokensOf(CollectedTokens(api, keys), key)| == |CollectedTable(api, keys)[key]|
    ensures var e := CollectedTable(api, keys)[key][i];
      e.Observation? && |Response(api, key, e.day)| > 0 &&
      TokensOf(CollectedTokens(api, keys), key)[i] ==
        BookingRef(key, Response(api, key, e.day)[0].bookingToken)
  {
    TokensOfCollected(api, keys, key);
    SeriesEntries(api, key, Window);
    assert CollectedTable(api, keys)[key] == Series(api, key, Window);
  }

  /** After a pass the table has exactly the scanned keys, and each route
      holds at most one observation per day of the window, in increasing
      day order, with no marker. */
  lemma CollectedTableShape(api: PricingApi, keys: seq<RouteKey>)
    requires AllWellFormed(keys)
    ensures forall k :: k in CollectedTable(api, keys) <==> k in keys
    ensures forall k :: k in keys ==>
      var s := CollectedTable(api, keys)[k];
      AllObservations(s) && DaysIncreasing(s) && |s| <= Window &&
      forall i :: 0 <= i < |s| ==> s[i].day < Window
  {
    forall k | k in keys
      ensures var s := CollectedTable(api, keys)[k];
        AllObservations(s) && DaysIncreasing(s) && |s| <= Window &&
        forall i :: 0 <= i < |s| ==> s[i].day < Window
    {
      assert CollectedTable(api, keys)[k] == Series(api, k, Window);
      SeriesEntries(api, k, Window);
      SeriesIncreasing(api, k, Window);
    }
  }
}
