/**
 * The tools the sub-agents call: the fuzzy catalogue search `available_food_search`,
 * the document lookup `retrieve_from_doc`, the order-table operations `cancel_order`,
 * `comment_order` and `check_order_status`, and the `CompleteOrEscalate` record.
 */
module Tools {
  import opened Wrappers
  import opened Messages
  import opened Strings
  import opened Levenshtein

  // ---------------------------------------------------------------------------------
  // available_food_search
  // ---------------------------------------------------------------------------------

  /** One row of `SELECT id, food_name, food_category, restaurant_name, price FROM foods`. */
  datatype FoodRow = FoodRow(id: int, foodName: string, category: string, restaurant: string, price: real)

  /** One entry of the result: the row's columns plus its `edit_distance`. */
  datatype FoodMatch = FoodMatch(id: int, foodName: string, category: string, restaurant: string,
                                 price: real, editDistance: nat)

  /** `max_distance`. */
  const MaxDistance: nat := 1

  /** A query argument counts only when it is truthy: neither `None` nor `""`. */
  predicate Given(q: Option<string>)
  {
    q.Some? && q.value != ""
  }

  /** The smallest of the three weighted distances between the lower-cased strings. */
  function FieldDistance(query: string, value: string): (d: nat)
    ensures d <= Distance(Lower(query), Lower(value), InsertFree)
    ensures d <= Distance(Lower(query), Lower(value), DeleteFree)
    ensures d <= Distance(Lower(query), Lower(value), Uniform)
    ensures d == Distance(Lower(query), Lower(value), InsertFree)
         || d == Distance(Lower(query), Lower(value), DeleteFree)
         || d == Distance(Lower(query), Lower(value), Uniform)
  {
    var q, v := Lower(query), Lower(value);
    Min3(Distance(q, v, InsertFree), Distance(q, v, DeleteFree), Distance(q, v, Uniform))
  }

  function EntryOf(row: FoodRow, d: nat): FoodMatch
  {
    FoodMatch(row.id, row.foodName, row.category, row.restaurant, row.price, d)
  }

  /**
   * The `edit_distance` a row is kept with, or `None` when the match rule rejects it
   * (or when neither query is given).
   */
  function RowDistance(row: FoodRow, foodName: Option<string>, restaurantName: Option<string>): Option<nat>
  {
    if Given(foodName) && Given(restaurantName) then
      var fd, rd := FieldDistance(foodName.value, row.foodName), FieldDistance(restaurantName.value, row.restaurant);
      if fd <= MaxDistance && rd <= MaxDistance then Some(Min(fd, rd)) else None
    else if Given(foodName) then
      var fd := FieldDistance(foodName.value, row.foodName);
      if fd <= MaxDistance then Some(fd) else None
    else if Given(restaurantName) then
      var rd := FieldDistance(restaurantName.value, row.restaurant);
      if rd <= MaxDistance then Some(rd) else None
    else None
  }

  /** What one iteration of the scan appends for `row`: its entry, or nothing. */
  function KeptEntry(row: FoodRow, foodName: Option<string>, restaurantName: Option<string>): seq<FoodMatch>
  {
    match RowDistance(row, foodName, restaurantName)
    case Some(d) => [EntryOf(row, d)]
    case None => []
  }

  /** `matches` after the loop over `rows`: the kept rows in catalogue order. */
  function Matches(rows: seq<FoodRow>, foodName: Option<string>, restaurantName: Option<string>): seq<FoodMatch>
  {
    if rows == [] then []
    else Matches(rows[..|rows| - 1], foodName, restaurantName) + KeptEntry(rows[|rows| - 1], foodName, restaurantName)
  }

  lemma KeptEntryMembership(row: FoodRow, foodName: Option<string>, restaurantName: Option<string>, m: FoodMatch)
    ensures m in KeptEntry(row, foodName, restaurantName)
        <==> RowDistance(row, foodName, restaurantName) == Some(m.editDistance) && m == EntryOf(row, m.editDistance)
  {
  }

  /**
   * A row is kept exactly when some query is given and every given query is within
   * `max_distance` of its field; it is kept with the smallest of the given field distances.
   */
  lemma RowDistanceRule(row: FoodRow, foodName: Option<string>, restaurantName: Option<string>)
    ensures RowDistance(row, foodName, restaurantName).Some? <==>
              ((Given(foodName) || Given(restaurantName))
               && (Given(foodName) ==> FieldDistance(foodName.value, row.foodName) <= MaxDistance)
               && (Given(restaurantName) ==> FieldDistance(restaurantName.value, row.restaurant) <= MaxDistance))
    ensures RowDistance(row, foodName, restaurantName).Some? && Given(foodName) ==>
              RowDistance(row, foodName, restaurantName).value <= FieldDistance(foodName.value, row.foodName)
    ensures RowDistance(row, foodName, restaurantName).Some? && Given(restaurantName) ==>
              RowDistance(row, foodName, restaurantName).value <= FieldDistance(restaurantName.value, row.restaurant)
    ensures RowDistance(row, foodName, restaurantName).Some? ==>
              ((Given(foodName) && RowDistance(row, foodName, restaurantName).value == FieldDistance(foodName.value, row.foodName))
               || (Given(restaurantName) && RowDistance(row, foodName, restaurantName).value == FieldDistance(restaurantName.value, row.restaurant)))
  {
  }

  /**
   * Stable insertion of `m` into `sorted`: it goes before the first entry whose distance
   * is at least its own, so it stays ahead of the entries it preceded.
   */
  function InsertByDistance(m: FoodMatch, sorted: seq<FoodMatch>): seq<FoodMatch>
  {
    if sorted == [] || m.editDistance <= sorted[0].editDistance then [m] + sorted
    else [sorted[0]] + InsertByDistance(m, sorted[1..])
  }

  /** `matches.sort(key=lambda x: x['edit_distance'])`, a stable sort. */
  function SortByDistance(ms: seq<FoodMatch>): seq<FoodMatch>
  {
    if ms == [] then [] else InsertByDistance(ms[0], SortByDistance(ms[1..]))
  }

  /** What `available_food_search` returns. */
  function Search(rows: seq<FoodRow>, foodName: Option<string>, restaurantName: Option<string>): seq<FoodMatch>
  {
    SortByDistance(Matches(rows, foodName, restaurantName))
  }

  predicate SortedByDistance(ms: seq<FoodMatch>)
  {
    forall i, j :: 0 <= i < j < |ms| ==> ms[i].editDistance <= ms[j].editDistance
  }

  /** The entries of `ms` with the given distance, in their order in `ms`. */
  function WithDistance(ms: seq<FoodMatch>, d: nat): seq<FoodMatch>
  {
    if ms == [] then []
    else (if ms[0].editDistance == d then [ms[0]] else []) + WithDistance(ms[1..], d)
  }

  lemma {:induction false} WithDistanceMembership(ms: seq<FoodMatch>, d: nat)
    ensures forall m :: m in WithDistance(ms, d) <==> m in ms && m.editDistance == d
  {
    if ms != [] {
      WithDistanceMembership(ms[1..], d);
      assert ms == [ms[0]] + ms[1..];
    }
  }

  /** The catalogue scan followed by the stable sort. */
  method AvailableFoodSearch(rows: seq<FoodRow>, foodName: Option<string>, restaurantName: Option<string>)
    returns (result: seq<FoodMatch>)
    ensures result == Search(rows, foodName, restaurantName)
    ensures result == WithDistance(Matches(rows, foodName, restaurantName), 0)
                    + WithDistance(Matches(rows, foodName, restaurantName), 1)
    ensures SortedByDistance(result)
    ensures multiset(result) == multiset(Matches(rows, foodName, restaurantName))
  {
    var matches: seq<FoodMatch> := [];
    for i := 0 to |rows|
      invariant matches == Matches(rows[..i], foodName, restaurantName)
    {
      var kept := MatchRow(rows[i], foodName, restaurantName);
      matches := matches + kept;
      SplitLast(rows[..i + 1]);
      assert rows[..i + 1][..i] == rows[..i];
    }
    assert rows[..|rows|] == rows;
    result := SortByDistance(matches);
    SearchOrdered(rows, foodName, restaurantName);
  }

  /**
   * One iteration of the scan: both field distances (`None` standing for `float('inf')`
   * when that query is not given) and the entry the row adds, if any.
   */
  method MatchRow(row: FoodRow, foodName: Option<string>, restaurantName: Option<string>) returns (kept: seq<FoodMatch>)
    ensures kept == KeptEntry(row, foodName, restaurantName)
  {
    kept := [];
    var foodNameDistance: Option<nat> := None;
    var restaurantNameDistance: Option<nat> := None;
    if Given(foodName) {
      var q, v := Lower(foodName.value), Lower(row.foodName);
      var d1, d2, d3 := Distance(q, v, InsertFree), Distance(q, v, DeleteFree), Distance(q, v, Uniform);
      foodNameDistance := Some(Min3(d1, d2, d3));
    }
    if Given(restaurantName) {
      var q, v := Lower(restaurantName.value), Lower(row.restaurant);
      var d1, d2, d3 := Distance(q, v, InsertFree), Distance(q, v, DeleteFree), Distance(q, v, Uniform);
      restaurantNameDistance := Some(Min3(d1, d2, d3));
    }
    assert Given(foodName) ==> foodNameDistance == Some(FieldDistance(foodName.value, row.foodName));
    assert Given(restaurantName) ==> restaurantNameDistance == Some(FieldDistance(restaurantName.value, row.restaurant));
    if Given(foodName) && Given(restaurantName) {
      if foodNameDistance.value <= MaxDistance && restaurantNameDistance.value <= MaxDistance {
        kept := [EntryOf(row, Min(foodNameDistance.value, restaurantNameDistance.value))];
      }
    } else if Given(foodName) {
      if foodNameDistance.value <= MaxDistance {
        kept := [EntryOf(row, foodNameDistance.value)];
      }
    } else if Given(restaurantName) {
      if restaurantNameDistance.value <= MaxDistance {
        kept := [EntryOf(row, restaurantNameDistance.value)];
      }
    }
  }

  // --- lemmas about the scan ---------------------------------------------------------

  /** Every kept entry has distance at most `max_distance`. */
  lemma {:induction false} MatchesWithinMax(rows: seq<FoodRow>, foodName: Option<string>, restaurantName: Option<string>)
    ensures WithinMax(Matches(rows, foodName, restaurantName))
  {
    if rows != [] {
      var front := Matches(rows[..|rows| - 1], foodName, restaurantName);
      MatchesWithinMax(rows[..|rows| - 1], foodName, restaurantName);
      var all := Matches(rows, foodName, restaurantName);
      forall i | 0 <= i < |all| ensures all[i].editDistance <= MaxDistance {
        if i < |front| { assert all[i] == front[i]; }
      }
    }
  }

  lemma SplitFirst<T>(s: seq<T>)
    requires s != []
    ensures s == [s[0]] + s[1..]
  {
  }

  lemma SplitLast<T>(s: seq<T>)
    requires s != []
    ensures s == s[..|s| - 1] + [s[|s| - 1]]
  {
  }

  /**
   * An entry is kept exactly when it copies a catalogue row that the match rule accepts,
   * with that row's distance: nothing is fabricated and nothing accepted is lost.
   */
  lemma {:induction false} MatchesMembership(rows: seq<FoodRow>, foodName: Option<string>, restaurantName: Option<string>, m: FoodMatch)
    ensures m in Matches(rows, foodName, restaurantName)
        <==> exists row :: row in rows && RowDistance(row, foodName, restaurantName) == Some(m.editDistance)
                                       && m == EntryOf(row, m.editDistance)
  {
    if rows != [] {
      var front, last := rows[..|rows| - 1], rows[|rows| - 1];
      MatchesMembership(front, foodName, restaurantName, m);
      KeptEntryMembership(last, foodName, restaurantName, m);
      SplitLast(rows);
      if exists row :: row in rows && RowDistance(row, foodName, restaurantName) == Some(m.editDistance)
                                   && m == EntryOf(row, m.editDistance) {
        var row :| row in rows && RowDistance(row, foodName, restaurantName) == Some(m.editDistance)
                               && m == EntryOf(row, m.editDistance);
        if row != last {
          assert row in front;
        }
      }
    }
  }

  /** The scan keeps at most one entry per catalogue row. */
  lemma {:induction false} MatchesLength(rows: seq<FoodRow>, foodName: Option<string>, restaurantName: Option<string>)
    ensures |Matches(rows, foodName, restaurantName)| <= |rows|
  {
    if rows != [] {
      MatchesLength(rows[..|rows| - 1], foodName, restaurantName);
    }
  }

  /** With neither query given the result is empty. */
  lemma {:induction false} NoQueryNoResult(rows: seq<FoodRow>, foodName: Option<string>, restaurantName: Option<string>)
    requires !Given(foodName) && !Given(restaurantName)
    ensures Search(rows, foodName, restaurantName) == []
  {
    if rows != [] {
      NoQueryNoResult(rows[..|rows| - 1], foodName, restaurantName);
    }
  }

  /** The catalogue ids are pairwise distinct. */
  predicate DistinctRowIds(rows: seq<FoodRow>)
  {
    forall i, j :: 0 <= i < j < |rows| ==> rows[i].id != rows[j].id
  }

  predicate DistinctIds(ms: seq<FoodMatch>)
  {
    forall i, j :: 0 <= i < j < |ms| ==> ms[i].id != ms[j].id
  }

  lemma {:induction false} MatchesDistinct(rows: seq<FoodRow>, foodName: Option<string>, restaurantName: Option<string>)
    requires DistinctRowIds(rows)
    ensures DistinctIds(Matches(rows, foodName, restaurantName))
  {
    if rows != [] {
      var front := rows[..|rows| - 1];
      var row := rows[|rows| - 1];
      assert DistinctRowIds(front) by {
        forall i, j | 0 <= i < j < |front| ensures front[i].id != front[j].id {
          assert front[i] == rows[i] && front[j] == rows[j];
        }
      }
      MatchesDistinct(front, foodName, restaurantName);
      var kept := KeptEntry(row, foodName, restaurantName);
      forall m | m in Matches(front, foodName, restaurantName) ensures m.id != row.id {
        MatchIdFromRow(front, foodName, restaurantName, m);
        var k :| 0 <= k < |front| && front[k].id == m.id;
        assert rows[k] == front[k];
      }
      AppendDistinct(Matches(front, foodName, restaurantName), kept, row.id);
    }
  }

  /** Every kept entry carries the id of some catalogue row. */
  lemma MatchIdFromRow(rows: seq<FoodRow>, foodName: Option<string>, restaurantName: Option<string>, m: FoodMatch)
    requires m in Matches(rows, foodName, restaurantName)
    ensures exists k :: 0 <= k < |rows| && rows[k].id == m.id
  {
    MatchesMembership(rows, foodName, restaurantName, m);
    var r :| r in rows && m == EntryOf(r, m.editDistance);
    var k :| 0 <= k < |rows| && rows[k] == r;
  }

  /** Appending at most one entry whose id is new keeps the ids distinct. */
  lemma AppendDistinct(ms: seq<FoodMatch>, extra: seq<FoodMatch>, id: int)
    requires DistinctIds(ms) && |extra| <= 1 && (extra != [] ==> extra[0].id == id)
    requires forall m :: m in ms ==> m.id != id
    ensures DistinctIds(ms + extra)
  {
    var all := ms + extra;
    forall i, j | 0 <= i < j < |all| ensures all[i].id != all[j].id {
      assert all[i] == ms[i];
      if j >= |ms| {
        assert ms[i] in ms;
      } else {
        assert all[j] == ms[j];
      }
    }
  }

  // --- lemmas about the stable sort ---------------------------------------------------

  /** Every entry of `ms` has distance `d`. */
  predicate AllAt(ms: seq<FoodMatch>, d: nat)
  {
    forall i :: 0 <= i < |ms| ==> ms[i].editDistance == d
  }

  /** Every entry of `ms` has distance at most `max_distance`. */
  predicate WithinMax(ms: seq<FoodMatch>)
  {
    forall i :: 0 <= i < |ms| ==> ms[i].editDistance <= MaxDistance
  }

  lemma {:induction false} WithDistanceAllAt(ms: seq<FoodMatch>, d: nat)
    ensures AllAt(WithDistance(ms, d), d)
  {
    if ms != [] {
      WithDistanceAllAt(ms[1..], d);
    }
  }

  lemma {:induction false} InsertAfterZeros(m: FoodMatch, zeros: seq<FoodMatch>, ones: seq<FoodMatch>)
    requires m.editDistance == 1 && AllAt(zeros, 0) && AllAt(ones, 1)
    ensures InsertByDistance(m, zeros + ones) == zeros + [m] + ones
  {
    if zeros == [] {
      assert zeros + ones == ones;
    } else {
      assert (zeros + ones)[0] == zeros[0];
      assert (zeros + ones)[1..] == zeros[1..] + ones;
      assert AllAt(zeros[1..], 0) by {
        forall i | 0 <= i < |zeros[1..]| ensures zeros[1..][i].editDistance == 0 {
          assert zeros[1..][i] == zeros[i + 1];
        }
      }
      InsertAfterZeros(m, zeros[1..], ones);
      assert InsertByDistance(m, zeros + ones) == [zeros[0]] + InsertByDistance(m, zeros[1..] + ones);
      assert zeros + [m] + ones == [zeros[0]] + (zeros[1..] + [m] + ones);
    }
  }

  lemma WithinMaxTail(ms: seq<FoodMatch>)
    requires ms != [] && WithinMax(ms)
    ensures WithinMax(ms[1..]) && ms[0].editDistance <= 1
  {
    forall i | 0 <= i < |ms[1..]| ensures ms[1..][i].editDistance <= MaxDistance {
      assert ms[1..][i] == ms[i + 1];
    }
  }

  /**
   * On distances 0 and 1 the stable sort puts the distance-0 entries first and the
   * distance-1 entries after them, each group in its original order.
   */
  lemma {:induction false} SortTwoBuckets(ms: seq<FoodMatch>)
    requires WithinMax(ms)
    ensures SortByDistance(ms) == WithDistance(ms, 0) + WithDistance(ms, 1)
  {
    if ms != [] {
      WithinMaxTail(ms);
      SortTwoBuckets(ms[1..]);
      if ms[0].editDistance == 0 {
        SortStepZero(ms);
      } else {
        SortStepOne(ms);
      }
    }
  }

  /** A distance-0 head goes in front of the sorted tail. */
  lemma SortStepZero(ms: seq<FoodMatch>)
    requires ms != [] && ms[0].editDistance == 0
    requires SortByDistance(ms[1..]) == WithDistance(ms[1..], 0) + WithDistance(ms[1..], 1)
    ensures SortByDistance(ms) == WithDistance(ms, 0) + WithDistance(ms, 1)
  {
    var m, zs, os := ms[0], WithDistance(ms[1..], 0), WithDistance(ms[1..], 1);
    InsertZero(m, zs + os);
    WithDistanceHead(ms, 0);
    WithDistanceHead(ms, 1);
    assert [m] + (zs + os) == ([m] + zs) + os;
  }

  /** A distance-0 entry is inserted at the front. */
  lemma InsertZero(m: FoodMatch, sorted: seq<FoodMatch>)
    requires m.editDistance == 0
    ensures InsertByDistance(m, sorted) == [m] + sorted
  {
  }

  lemma WithDistanceHead(ms: seq<FoodMatch>, d: nat)
    requires ms != []
    ensures WithDistance(ms, d) == (if ms[0].editDistance == d then [ms[0]] else []) + WithDistance(ms[1..], d)
  {
  }

  /** A distance-1 head goes after the distance-0 entries of the sorted tail. */
  lemma SortStepOne(ms: seq<FoodMatch>)
    requires ms != [] && ms[0].editDistance == 1
    requires SortByDistance(ms[1..]) == WithDistance(ms[1..], 0) + WithDistance(ms[1..], 1)
    ensures SortByDistance(ms) == WithDistance(ms, 0) + WithDistance(ms, 1)
  {
    var zs, os := WithDistance(ms[1..], 0), WithDistance(ms[1..], 1);
    assert WithDistance(ms, 0) == zs;
    assert WithDistance(ms, 1) == [ms[0]] + os;
    WithDistanceAllAt(ms[1..], 0);
    WithDistanceAllAt(ms[1..], 1);
    InsertAfterZeros(ms[0], zs, os);
  }

  lemma BucketsSorted(ms: seq<FoodMatch>)
    ensures SortedByDistance(WithDistance(ms, 0) + WithDistance(ms, 1))
  {
    var zs, os := WithDistance(ms, 0), WithDistance(ms, 1);
    WithDistanceMembership(ms, 0);
    WithDistanceMembership(ms, 1);
    var all: seq<FoodMatch> := zs + os;
    forall i, j | 0 <= i < j < |all| ensures all[i].editDistance <= all[j].editDistance {
      if i < |zs| { assert all[i] in zs; }
      else { assert all[i] in os && all[j] in os; }
    }
  }

  lemma {:induction false} BucketsPermutation(ms: seq<FoodMatch>)
    requires WithinMax(ms)
    ensures multiset(WithDistance(ms, 0) + WithDistance(ms, 1)) == multiset(ms)
  {
    if ms != [] {
      WithinMaxTail(ms);
      BucketsPermutation(ms[1..]);
      BucketsPermutationStep(ms);
      assert ms == [ms[0]] + ms[1..];
    }
  }

  /** The head of `ms` joins exactly one of the two groups. */
  lemma BucketsPermutationStep(ms: seq<FoodMatch>)
    requires ms != [] && ms[0].editDistance <= 1
    ensures multiset(WithDistance(ms, 0) + WithDistance(ms, 1))
         == multiset([ms[0]]) + multiset(WithDistance(ms[1..], 0) + WithDistance(ms[1..], 1))
  {
    var zs, os := WithDistance(ms[1..], 0), WithDistance(ms[1..], 1);
    if ms[0].editDistance == 0 {
      assert WithDistance(ms, 0) + WithDistance(ms, 1) == [ms[0]] + (zs + os);
    } else {
      assert WithDistance(ms, 0) + WithDistance(ms, 1) == zs + ([ms[0]] + os);
    }
  }

  /** An entry no farther than any entry of a sorted list can go in front of it. */
  lemma PrependKeepsSorted(x: FoodMatch, rest: seq<FoodMatch>)
    requires SortedByDistance(rest)
    requires forall k :: 0 <= k < |rest| ==> x.editDistance <= rest[k].editDistance
    ensures SortedByDistance([x] + rest)
  {
    var r := [x] + rest;
    forall i, j | 0 <= i < j < |r| ensures r[i].editDistance <= r[j].editDistance {
      assert r[j] == rest[j - 1];
      if i > 0 {
        assert r[i] == rest[i - 1];
      }
    }
  }

  lemma SortedTail(ms: seq<FoodMatch>)
    requires ms != [] && SortedByDistance(ms)
    ensures SortedByDistance(ms[1..])
    ensures forall k :: 0 <= k < |ms[1..]| ==> ms[0].editDistance <= ms[1..][k].editDistance
  {
    forall i, j | 0 <= i < j < |ms[1..]| ensures ms[1..][i].editDistance <= ms[1..][j].editDistance {
      assert ms[1..][i] == ms[i + 1] && ms[1..][j] == ms[j + 1];
    }
    forall k | 0 <= k < |ms[1..]| ensures ms[0].editDistance <= ms[1..][k].editDistance {
      assert ms[1..][k] == ms[k + 1];
    }
  }

  /** Insertion adds `m` and loses nothing. */
  lemma {:induction false} InsertPermutation(m: FoodMatch, sorted: seq<FoodMatch>)
    ensures multiset(InsertByDistance(m, sorted)) == multiset(sorted) + multiset{m}
  {
    if sorted != [] && m.editDistance > sorted[0].editDistance {
      InsertPermutation(m, sorted[1..]);
      assert sorted == [sorted[0]] + sorted[1..];
    }
  }

  /** Inserting into a list sorted by distance keeps it sorted. */
  lemma {:induction false} InsertKeepsSorted(m: FoodMatch, sorted: seq<FoodMatch>)
    requires SortedByDistance(sorted)
    ensures SortedByDistance(InsertByDistance(m, sorted))
  {
    if sorted == [] || m.editDistance <= sorted[0].editDistance {
      if sorted != [] {
        SortedTail(sorted);
      }
      PrependKeepsSorted(m, sorted);
    } else {
      var tail := sorted[1..];
      SortedTail(sorted);
      InsertKeepsSorted(m, tail);
      var ins := InsertByDistance(m, tail);
      InsertPermutation(m, tail);
      forall k | 0 <= k < |ins| ensures sorted[0].editDistance <= ins[k].editDistance {
        assert ins[k] in multiset(tail) + multiset{m};
      }
      PrependKeepsSorted(sorted[0], ins);
    }
  }

  /** For any distances, the stable sort returns its input reordered by distance. */
  lemma {:induction false} SortByDistanceSorted(ms: seq<FoodMatch>)
    ensures SortedByDistance(SortByDistance(ms))
    ensures multiset(SortByDistance(ms)) == multiset(ms)
  {
    if ms != [] {
      SortByDistanceSorted(ms[1..]);
      InsertKeepsSorted(ms[0], SortByDistance(ms[1..]));
      InsertPermutation(ms[0], SortByDistance(ms[1..]));
      SplitFirst(ms);
    }
  }

  // --- properties of the whole search ------------------------------------------------

  /** The result is sorted by distance, ties in catalogue order, and a permutation of the kept rows. */
  lemma SearchOrdered(rows: seq<FoodRow>, foodName: Option<string>, restaurantName: Option<string>)
    ensures var ms := Matches(rows, foodName, restaurantName);
      && Search(rows, foodName, restaurantName) == WithDistance(ms, 0) + WithDistance(ms, 1)
      && SortedByDistance(Search(rows, foodName, restaurantName))
      && multiset(Search(rows, foodName, restaurantName)) == multiset(ms)
  {
    var ms := Matches(rows, foodName, restaurantName);
    MatchesWithinMax(rows, foodName, restaurantName);
    SortTwoBuckets(ms);
    BucketsSorted(ms);
    BucketsPermutation(ms);
  }

  /**
   * An entry is in the result exactly when it copies a catalogue row the match rule
   * accepts, carrying that row's distance.
   */
  lemma SearchMembership(rows: seq<FoodRow>, foodName: Option<string>, restaurantName: Option<string>, m: FoodMatch)
    ensures m in Search(rows, foodName, restaurantName)
        <==> exists row :: row in rows && RowDistance(row, foodName, restaurantName) == Some(m.editDistance)
                                       && m == EntryOf(row, m.editDistance)
  {
    SearchOrdered(rows, foodName, restaurantName);
    var ms := Matches(rows, foodName, restaurantName);
    assert m in Search(rows, foodName, restaurantName) <==> m in multiset(ms);
    MatchesMembership(rows, foodName, restaurantName, m);
  }

  /** With distinct catalogue ids the result holds each id at most once. */
  lemma SearchDistinct(rows: seq<FoodRow>, foodName: Option<string>, restaurantName: Option<string>)
    requires DistinctRowIds(rows)
    ensures DistinctIds(Search(rows, foodName, restaurantName))
    ensures |Search(rows, foodName, restaurantName)| <= |rows|
  {
    var ms := Matches(rows, foodName, restaurantName);
    MatchesDistinct(rows, foodName, restaurantName);
    MatchesLength(rows, foodName, restaurantName);
    SearchOrdered(rows, foodName, restaurantName);
    assert |Search(rows, foodName, restaurantName)| == |multiset(ms)| == |ms|;
    BucketsDistinct(ms);
  }

  /** Splitting entries with distinct ids into the two buckets keeps the ids distinct. */
  lemma BucketsDistinct(ms: seq<FoodMatch>)
    requires DistinctIds(ms)
    ensures DistinctIds(WithDistance(ms, 0) + WithDistance(ms, 1))
  {
    var zs, os := WithDistance(ms, 0), WithDistance(ms, 1);
    SubsequenceDistinct(ms, 0);
    SubsequenceDistinct(ms, 1);
    WithDistanceMembership(ms, 0);
    WithDistanceMembership(ms, 1);
    var all: seq<FoodMatch> := zs + os;
    forall i, j | 0 <= i < j < |all| ensures all[i].id != all[j].id {
      if j < |zs| {
        assert all[i] == zs[i] && all[j] == zs[j];
      } else if i >= |zs| {
        assert all[i] == os[i - |zs|] && all[j] == os[j - |zs|];
      } else {
        assert all[i] == zs[i] && all[j] == os[j - |zs|];
        DistinctInSource(ms, zs[i], os[j - |zs|]);
      }
    }
  }

  /** Two different entries of a sequence with distinct ids have different ids. */
  lemma DistinctInSource(ms: seq<FoodMatch>, a: FoodMatch, b: FoodMatch)
    requires DistinctIds(ms) && a in ms && b in ms && a != b
    ensures a.id != b.id
  {
    var p :| 0 <= p < |ms| && ms[p] == a;
    var q :| 0 <= q < |ms| && ms[q] == b;
    if p > q {
      assert ms[q].id != ms[p].id;
    }
  }

  lemma {:induction false} SubsequenceDistinct(ms: seq<FoodMatch>, d: nat)
    requires DistinctIds(ms)
    ensures DistinctIds(WithDistance(ms, d))
  {
    if ms != [] {
      SubsequenceDistinct(ms[1..], d);
      WithDistanceMembership(ms[1..], d);
      forall m | m in WithDistance(ms[1..], d) ensures m.id != ms[0].id {
        var k :| 0 <= k < |ms[1..]| && ms[1..][k] == m;
        assert ms[k + 1] == m;
      }
    }
  }

  /**
   * Searching by food name alone always returns a row whose food name equals the query
   * up to case, with distance 0.
   */
  lemma ExactFoodNameFound(rows: seq<FoodRow>, foodName: string, row: FoodRow)
    requires foodName != "" && row in rows
    requires Lower(row.foodName) == Lower(foodName)
    ensures EntryOf(row, 0) in Search(rows, Some(foodName), None)
  {
    DistanceToSelf(Lower(foodName), Uniform);
    assert FieldDistance(foodName, row.foodName) == 0;
    SearchMembership(rows, Some(foodName), None, EntryOf(row, 0));
  }

  /**
   * Searching by food name alone returns, with distance 0, every row whose lower-cased
   * food name contains the lower-cased query.
   */
  lemma ContainedFoodNameFound(rows: seq<FoodRow>, foodName: string, row: FoodRow, x: string, y: string)
    requires foodName != "" && row in rows
    requires Lower(row.foodName) == x + Lower(foodName) + y
    ensures EntryOf(row, 0) in Search(rows, Some(foodName), None)
  {
    ContainedIsFree(Lower(foodName), x, y, InsertFree);
    assert FieldDistance(foodName, row.foodName) == 0;
    SearchMembership(rows, Some(foodName), None, EntryOf(row, 0));
  }

  // --- ranking of near and far names -------------------------------------------------

  /**
   * A name one substitution away from the query, where neither changed character occurs
   * in the other string, is at distance exactly 1.
   */
  lemma TypoDistance(query: string, name: string, p: string, c: char, d: char, s: string)
    requires Lower(query) == p + [d] + s && Lower(name) == p + [c] + s
    requires d !in Lower(name) && c !in Lower(query)
    ensures FieldDistance(query, name) == 1
  {
    var q, v := Lower(query), Lower(name);
    OneSubstitution(p, d, c, s, Uniform);
    MissingAtLeastOne(q, v, |p|);
    MissingAtLeastOne(v, q, |p|);
    MissingFromTargetBound(q, v, InsertFree);
    MissingFromTargetBound(q, v, Uniform);
    MissingFromSourceBound(q, v, DeleteFree);
  }

  lemma {:induction false} MissingAtLeastOne(a: string, b: string, k: nat)
    requires k < |a| && a[k] !in b
    ensures Missing(a, b) >= 1
  {
    if k > 0 {
      MissingAtLeastOne(a[1..], b, k - 1);
    }
  }

  /** Too many characters missing in each direction put a name beyond `max_distance`. */
  lemma FarFieldDistance(query: string, name: string)
    requires Missing(Lower(query), Lower(name)) > MaxDistance
    requires Missing(Lower(name), Lower(query)) > MaxDistance
    ensures FieldDistance(query, name) > MaxDistance
  {
    var q, v := Lower(query), Lower(name);
    MissingFromTargetBound(q, v, InsertFree);
    MissingFromTargetBound(q, v, Uniform);
    MissingFromSourceBound(q, v, DeleteFree);
  }

  /**
   * A name sharing too few characters with the query, in either direction, is farther
   * than `max_distance`: a food-name search never returns its row.
   */
  lemma FarNameNotFound(rows: seq<FoodRow>, foodName: string, row: FoodRow)
    requires Missing(Lower(foodName), Lower(row.foodName)) > MaxDistance
    requires Missing(Lower(row.foodName), Lower(foodName)) > MaxDistance
    ensures forall d :: EntryOf(row, d) !in Search(rows, Some(foodName), None)
  {
    FarFieldDistance(foodName, row.foodName);
    forall d: nat ensures EntryOf(row, d) !in Search(rows, Some(foodName), None) {
      SearchMembership(rows, Some(foodName), None, EntryOf(row, d));
      forall r | r in rows && EntryOf(row, d) == EntryOf(r, d)
        ensures RowDistance(r, Some(foodName), None) != Some(d)
      {
        assert r.foodName == row.foodName;
      }
    }
  }

  /**
   * A catalogue listing a one-typo name before the exact name: a food-name search returns
   * both, the exact row (distance 0) ahead of the typo row (distance 1).
   */
  lemma ExactRanksBeforeTypo(foodName: string, typo: FoodRow, exact: FoodRow, p: string, c: char, d: char, s: string)
    requires foodName != ""
    requires Lower(foodName) == p + [d] + s && Lower(typo.foodName) == p + [c] + s
    requires d !in Lower(typo.foodName) && c !in Lower(foodName)
    requires Lower(exact.foodName) == Lower(foodName)
    ensures Search([typo, exact], Some(foodName), None) == [EntryOf(exact, 0), EntryOf(typo, 1)]
  {
    TypoDistance(foodName, typo.foodName, p, c, d, s);
    DistanceToSelf(Lower(foodName), Uniform);
    assert FieldDistance(foodName, exact.foodName) == 0;
    var q := Some(foodName);
    assert RowDistance(typo, q, None) == Some(1);
    assert RowDistance(exact, q, None) == Some(0);
    var rows := [typo, exact];
    assert rows[..1] == [typo] && [typo][..0] == [];
    assert Matches([typo], q, None) == [EntryOf(typo, 1)];
    assert Matches(rows, q, None) == [EntryOf(typo, 1), EntryOf(exact, 0)];
    SortSwapsPair(EntryOf(typo, 1), EntryOf(exact, 0));
  }

  /** A farther entry ahead of a nearer one trades places with it. */
  lemma SortSwapsPair(far: FoodMatch, near: FoodMatch)
    requires near.editDistance < far.editDistance
    ensures SortByDistance([far, near]) == [near, far]
  {
    var ms := [far, near];
    assert ms[1..] == [near] && ms[1..][1..] == [];
    assert SortByDistance(ms[1..]) == [near];
    assert [near][1..] == [];
    assert InsertByDistance(far, [near]) == [near] + InsertByDistance(far, []);
  }

  // ---------------------------------------------------------------------------------
  // retrieve_from_doc
  // ---------------------------------------------------------------------------------

  /** One record returned by the document search: its `text` and relevance score. */
  datatype DocHit = DocHit(text: string, score: real)

  const NoResult: string := "NO RESULT!"

  /**
   * The tool's answer for the search result `hits`: the texts in order, or the single
   * marker `"NO RESULT!"` when there are none. The answer is never empty.
   */
  function RetrieveFromDoc(hits: seq<DocHit>): (r: seq<string>)
    ensures |r| > 0
    ensures hits != [] ==> |r| == |hits| && forall i :: 0 <= i < |hits| ==> r[i] == hits[i].text
    ensures hits == [] ==> r == [NoResult]
  {
    if |hits| > 0 then seq(|hits|, i requires 0 <= i < |hits| => hits[i].text) else [NoResult]
  }

  // ---------------------------------------------------------------------------------
  // the food_orders table: cancel_order, comment_order, check_order_status
  // ---------------------------------------------------------------------------------

  /** The columns of a `food_orders` row the tools read or write; the row's key is its id. */
  datatype Order = Order(personName: string, phone: string, status: string, comment: string)

  const Preparation: string := "preparation"
  const CanceledStatus: string := "canceled"

  /** Which branch `cancel_order` took. */
  datatype CancelResult = NoSuchOrder | Canceled | NotCancelable(status: string)

  /** Which branch `comment_order` took. */
  datatype CommentResult = NoSuchId | Commented

  /** The table after a tool call, and the branch it took. */
  datatype CancelOutcome = CancelOutcome(orders: map<int, Order>, result: CancelResult)
  datatype CommentOutcome = CommentOutcome(orders: map<int, Order>, result: CommentResult)

  /** `SELECT status ... WHERE id = ? AND person_phone_number = ?` finds a row. */
  predicate OwnedBy(orders: map<int, Order>, id: int, phone: string)
  {
    id in orders && orders[id].phone == phone
  }

  /**
   * `cancel_order(id, phone)`: only an order of that phone still in "preparation" is
   * canceled; every other call leaves the table as it was.
   */
  function Cancel(orders: map<int, Order>, id: int, phone: string): (r: CancelOutcome)
    ensures r.orders.Keys == orders.Keys
    ensures r.result.NoSuchOrder? <==> !OwnedBy(orders, id, phone)
    ensures r.result.Canceled? <==> OwnedBy(orders, id, phone) && orders[id].status == Preparation
    ensures r.result.NotCancelable? ==> OwnedBy(orders, id, phone) && r.result.status == orders[id].status != Preparation
    ensures r.result.Canceled? ==> r.orders[id] == orders[id].(status := CanceledStatus)
    ensures !r.result.Canceled? ==> r.orders == orders
    ensures forall k :: k in orders && k != id ==> r.orders[k] == orders[k]
  {
    if !OwnedBy(orders, id, phone) then CancelOutcome(orders, NoSuchOrder)
    else if orders[id].status == Preparation then
      CancelOutcome(orders[id := orders[id].(status := CanceledStatus)], Canceled)
    else CancelOutcome(orders, NotCancelable(orders[id].status))
  }

  /**
   * `comment_order(id, name, comment)`: the comment of an existing order is replaced
   * (not appended to); an unknown id leaves the table as it was.
   */
  function Comment(orders: map<int, Order>, id: int, comment: string): (r: CommentOutcome)
    ensures r.orders.Keys == orders.Keys
    ensures r.result.Commented? <==> id in orders
    ensures id in orders ==> r.orders[id] == orders[id].(comment := comment)
    ensures id !in orders ==> r.orders == orders
    ensures forall k :: k in orders && k != id ==> r.orders[k] == orders[k]
  {
    if id in orders then CommentOutcome(orders[id := orders[id].(comment := comment)], Commented)
    else CommentOutcome(orders, NoSuchId)
  }

  /** The message `cancel_order` returns for each branch. */
  function CancelText(id: int, phone: string, result: CancelResult): string
  {
    match result
    case NoSuchOrder => "Order ID " + IntToString(id) + " from " + phone + " does not exist."
    case Canceled => "Order ID " + IntToString(id) + " from " + phone + " has been successfully canceled."
    case NotCancelable(status) =>
      "Order ID " + IntToString(id) + " from " + phone + " cannot be canceled as it is in '" + status + "' status."
  }

  /** The message `comment_order` returns for each branch. */
  function CommentText(id: int, personName: string, result: CommentResult): string
  {
    match result
    case NoSuchId => "Order ID " + IntToString(id) + " does not exist."
    case Commented => "Comment for Order ID " + IntToString(id) + " from " + personName + " has been updated."
  }

  /** The message `check_order_status` returns: the status of the order, if there is one. */
  function StatusText(id: int, status: Option<string>): string
  {
    match status
    case None => "Order ID " + IntToString(id) + " does not exist."
    case Some(st) => "Order ID " + IntToString(id) + " from is currently in '" + st + "' status."
  }

  /** The `status` column of order `id`, if the table has that order. */
  function StatusOf(orders: map<int, Order>, id: int): (r: Option<string>)
    ensures r.Some? <==> id in orders
    ensures r.Some? ==> r.value == orders[id].status
  {
    if id in orders then Some(orders[id].status) else None
  }

  /** A second cancellation of the same order changes nothing. */
  lemma CancelIdempotent(orders: map<int, Order>, id: int, phone: string)
    ensures var once := Cancel(orders, id, phone).orders;
            Cancel(once, id, phone).orders == once
  {
  }

  /** Once canceled, an order reports that status and can no longer be canceled. */
  lemma CanceledStaysCanceled(orders: map<int, Order>, id: int, phone: string)
    requires Cancel(orders, id, phone).result.Canceled?
    ensures var after := Cancel(orders, id, phone).orders;
            StatusOf(after, id) == Some(CanceledStatus) &&
            Cancel(after, id, phone).result == NotCancelable(CanceledStatus)
  {
  }

  /** Two comments on the same order: the last one wins. */
  lemma CommentLastWriteWins(orders: map<int, Order>, id: int, first: string, second: string)
    ensures Comment(Comment(orders, id, first).orders, id, second).orders == Comment(orders, id, second).orders
  {
  }

  /** Commenting never changes any order's status, so it never affects cancellation. */
  lemma CommentKeepsStatus(orders: map<int, Order>, id: int, comment: string, other: int)
    ensures StatusOf(Comment(orders, id, comment).orders, other) == StatusOf(orders, other)
  {
  }

  /** The food_orders table, updated in place by the order tools. */
  class OrderStore {
    var orders: map<int, Order>

    constructor(initial: map<int, Order>)
      ensures orders == initial
    {
      orders := initial;
    }

    /** `cancel_order`: look the order up by id and phone, then update its status. */
    method CancelOrder(id: int, phone: string) returns (reply: string)
      modifies this
      ensures orders == Cancel(old(orders), id, phone).orders
      ensures reply == CancelText(id, phone, Cancel(old(orders), id, phone).result)
    {
      if !(id in orders && orders[id].phone == phone) {
        return CancelText(id, phone, NoSuchOrder);
      }
      var current := orders[id].status;
      if current == Preparation {
        orders := orders[id := orders[id].(status := CanceledStatus)];
        reply := CancelText(id, phone, Canceled);
      } else {
        reply := CancelText(id, phone, NotCancelable(current));
      }
    }

    /** `comment_order`: look the order up by id, then overwrite its comment. */
    method CommentOrder(id: int, personName: string, comment: string) returns (reply: string)
      modifies this
      ensures orders == Comment(old(orders), id, comment).orders
      ensures reply == CommentText(id, personName, Comment(old(orders), id, comment).result)
    {
      if id !in orders {
        return CommentText(id, personName, NoSuchId);
      }
      orders := orders[id := orders[id].(comment := comment)];
      reply := CommentText(id, personName, Commented);
    }

    /** `check_order_status`: a read of the table, which it leaves unchanged. */
    method CheckOrderStatus(id: int) returns (reply: string)
      ensures reply == StatusText(id, StatusOf(orders, id))
      ensures id in orders ==> reply == StatusText(id, Some(orders[id].status))
      ensures id !in orders ==> reply == StatusText(id, None)
    {
      if id in orders {
        reply := StatusText(id, Some(orders[id].status));
      } else {
        reply := StatusText(id, None);
      }
    }
  }

  // ---------------------------------------------------------------------------------
  // CompleteOrEscalate
  // ---------------------------------------------------------------------------------

  /** The `CompleteOrEscalate` record: `cancel` is true to escalate, false when done. */
  datatype CompleteOrEscalateRecord = CompleteOrEscalateRecord(cancel: bool, reason: string)

  /** The record as the `args` of a tool call. */
  function EscalationArgs(rec: CompleteOrEscalateRecord): (r: map<string, Value>)
    ensures r.Keys == {"cancel", "reason"}
    ensures r["cancel"] == Bool(rec.cancel) && r["reason"] == Str(rec.reason)
  {
    map["cancel" := Bool(rec.cancel), "reason" := Str(rec.reason)]
  }

  /** Validation of tool-call `args` against the record's two typed fields. */
  function ParseEscalation(args: map<string, Value>): (r: Option<CompleteOrEscalateRecord>)
    ensures r.Some? <==> "cancel" in args && args["cancel"].Bool? && "reason" in args && args["reason"].Str?
    ensures r.Some? ==> r.value.cancel == args["cancel"].b && r.value.reason == args["reason"].s
  {
    if "cancel" in args && args["cancel"].Bool? && "reason" in args && args["reason"].Str? then
      Some(CompleteOrEscalateRecord(args["cancel"].b, args["reason"].s))
    else None
  }

  /** Writing a record as call arguments and validating them gives the record back. */
  lemma EscalationRoundTrip(rec: CompleteOrEscalateRecord)
    ensures ParseEscalation(EscalationArgs(rec)) == Some(rec)
  {
  }
}
