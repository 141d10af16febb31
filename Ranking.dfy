/**
 * The "nearby attractions" ranking of the detail page: keep the other
 * attractions with real coordinates, measure each from the current one, sort
 * ascending with JavaScript's stable `Array.prototype.sort`, keep the first
 * three. The distance itself (the haversine `getDistance`) is a parameter.
 */
module Ranking {
  import opened Wrappers
  import opened Catalog

  /** `s` is in ascending order of `key`. */
  predicate SortedBy<T>(s: seq<T>, key: T -> real) {
    forall i, j :: 0 <= i < j < |s| ==> key(s[i]) <= key(s[j])
  }

  /** `x` placed just before the first element of `s` whose key is not below its own. */
  function Insert<T(==)>(x: T, s: seq<T>, key: T -> real): (r: seq<T>)
    ensures multiset(r) == multiset(s) + multiset{x}
  {
    if s == [] || key(x) <= key(s[0]) then [x] + s
    else
      assert s == [s[0]] + s[1..];
      [s[0]] + Insert(x, s[1..], key)
  }

  /** Inserting into a sorted sequence keeps it sorted. */
  lemma {:induction false} InsertSorted<T>(x: T, s: seq<T>, key: T -> real)
    requires SortedBy(s, key)
    ensures SortedBy(Insert(x, s, key), key)
  {
    if s != [] && key(x) > key(s[0]) {
      var rest := Insert(x, s[1..], key);
      InsertSorted(x, s[1..], key);
      assert s == [s[0]] + s[1..];
      forall k | 0 <= k < |rest|
        ensures key(s[0]) <= key(rest[k])
      {
        assert rest[k] in multiset(rest);
        if rest[k] != x {
          assert rest[k] in multiset(s[1..]);
          var m :| 0 <= m < |s[1..]| && s[1..][m] == rest[k];
          assert s[m + 1] == rest[k];
        }
      }
    }
  }

  /**
   * `s.sort((a, b) => key(a) - key(b))`: ascending by `key`, and stable
   * (see `SortByStable`), as ECMAScript 2019 requires of `Array.prototype.sort`.
   */
  function SortBy<T(==)>(s: seq<T>, key: T -> real): (r: seq<T>)
    ensures multiset(r) == multiset(s)
    ensures SortedBy(r, key)
  {
    if s == [] then []
    else
      assert s == [s[0]] + s[1..];
      InsertSorted(s[0], SortBy(s[1..], key), key);
      Insert(s[0], SortBy(s[1..], key), key)
  }

  /** The elements of `s` whose key is `v`, in their order in `s`. */
  function WithKey<T>(s: seq<T>, key: T -> real, v: real): seq<T> {
    if s == [] then [] else (if key(s[0]) == v then [s[0]] else []) + WithKey(s[1..], key, v)
  }

  lemma {:induction false} InsertStable<T>(x: T, s: seq<T>, key: T -> real, v: real)
    ensures WithKey(Insert(x, s, key), key, v) == (if key(x) == v then [x] else []) + WithKey(s, key, v)
  {
    if s == [] || key(x) <= key(s[0]) {
      assert ([x] + s)[1..] == s;
    } else {
      var ins := Insert(x, s[1..], key);
      InsertStable(x, s[1..], key, v);
      assert Insert(x, s, key) == [s[0]] + ins;
      assert ([s[0]] + ins)[1..] == ins;
      assert WithKey([s[0]] + ins, key, v) == (if key(s[0]) == v then [s[0]] else []) + WithKey(ins, key, v);
      assert WithKey(s, key, v) == (if key(s[0]) == v then [s[0]] else []) + WithKey(s[1..], key, v);
    }
  }

  /** Stability: elements whose keys are equal leave the sort in their input order. */
  lemma {:induction false} SortByStable<T>(s: seq<T>, key: T -> real, v: real)
    ensures WithKey(SortBy(s, key), key, v) == WithKey(s, key, v)
  {
    if s != [] {
      SortByStable(s[1..], key, v);
      InsertStable(s[0], SortBy(s[1..], key), key, v);
    }
  }

  /** Only a prefix of the ties survives `slice(0, n)`, in their order. */
  lemma {:induction false} WithKeyOfPrefix<T>(s: seq<T>, n: nat, key: T -> real, v: real)
    requires n <= |s|
    ensures WithKey(s[..n], key, v) <= WithKey(s, key, v)
  {
    if n > 0 {
      WithKeyOfPrefix(s[1..], n - 1, key, v);
      assert s[..n][1..] == s[1..][..n - 1];
    }
  }

  /** `s.map(f)`. */
  function Project<U, T>(s: seq<U>, f: U -> T): (r: seq<T>)
    ensures |r| == |s| && forall k :: 0 <= k < |s| ==> r[k] == f(s[k])
  {
    if s == [] then [] else [f(s[0])] + Project(s[1..], f)
  }

  /** `f` carries the key `ku` of each element of `s` to the key `kt`. */
  ghost predicate KeysAgree<U, T>(s: seq<U>, f: U -> T, ku: U -> real, kt: T -> real) {
    forall u :: u in s ==> ku(u) == kt(f(u))
  }

  lemma {:induction false} InsertProject<U, T>(x: U, s: seq<U>, f: U -> T, ku: U -> real, kt: T -> real)
    requires ku(x) == kt(f(x)) && KeysAgree(s, f, ku, kt)
    ensures Project(Insert(x, s, ku), f) == Insert(f(x), Project(s, f), kt)
  {
    if s == [] || ku(x) <= ku(s[0]) {
      assert Project([x] + s, f) == [f(x)] + Project(s, f);
    } else {
      assert s[0] in s;
      assert KeysAgree(s[1..], f, ku, kt) by {
        forall u | u in s[1..] ensures ku(u) == kt(f(u)) {
          assert u in s;
        }
      }
      InsertProject(x, s[1..], f, ku, kt);
      assert Project(s, f)[1..] == Project(s[1..], f);
      assert Project([s[0]] + Insert(x, s[1..], ku), f) == [f(s[0])] + Project(Insert(x, s[1..], ku), f);
    }
  }

  /**
   * Sorting by a key and then mapping gives what mapping and then sorting by
   * the carried key gives: it does not matter whether the distance is stored
   * beside each element or measured inside the comparator.
   */
  lemma {:induction false} SortByProject<U, T>(s: seq<U>, f: U -> T, ku: U -> real, kt: T -> real)
    requires KeysAgree(s, f, ku, kt)
    ensures Project(SortBy(s, ku), f) == SortBy(Project(s, f), kt)
  {
    if s != [] {
      assert s[0] in s;
      assert KeysAgree(s[1..], f, ku, kt) by {
        forall u | u in s[1..] ensures ku(u) == kt(f(u)) {
          assert u in s;
        }
      }
      SortByProject(s[1..], f, ku, kt);
      var sorted := SortBy(s[1..], ku);
      assert KeysAgree(sorted, f, ku, kt) by {
        forall u | u in sorted ensures ku(u) == kt(f(u)) {
          assert u in multiset(sorted);
          assert u in multiset(s[1..]);
          assert u in s;
        }
      }
      InsertProject(s[0], sorted, f, ku, kt);
      assert Project(s, f)[1..] == Project(s[1..], f);
    }
  }

  /** `s.slice(0, n)`. */
  function Take<T>(s: seq<T>, n: nat): (r: seq<T>)
    ensures |r| == if |s| <= n then |s| else n
    ensures r <= s
  {
    if |s| <= n then s else s[..n]
  }

  lemma ProjectTake<U, T>(s: seq<U>, f: U -> T, n: nat)
    ensures Project(Take(s, n), f) == Take(Project(s, f), n)
  {
  }

  /** The filter of the nearby lists: another attraction, whose coordinates exist and are not a placeholder. */
  predicate IsCandidate(a: Attraction, currentId: string) {
    a.id != currentId && a.coordinates.Some? && !a.coordinates.value.placeholder
  }

  /** `attractions.filter(a => IsCandidate(a, currentId))`. */
  function Candidates(attractions: seq<Attraction>, currentId: string): (r: seq<Attraction>)
    ensures forall a :: a in r <==> a in attractions && IsCandidate(a, currentId)
    ensures |r| <= |attractions|
  {
    if attractions == [] then []
    else (if IsCandidate(attractions[0], currentId) then [attractions[0]] else []) + Candidates(attractions[1..], currentId)
  }

  /** The filter keeps the file order: filtering a concatenation filters each part in turn. */
  lemma {:induction false} CandidatesAppend(s: seq<Attraction>, t: seq<Attraction>, currentId: string)
    ensures Candidates(s + t, currentId) == Candidates(s, currentId) + Candidates(t, currentId)
    decreases |s|
  {
    if s != [] {
      assert (s + t)[0] == s[0] && (s + t)[1..] == s[1..] + t;
      CandidatesAppend(s[1..], t, currentId);
    } else {
      assert s + t == t;
    }
  }

  /** How far apart two points are; stands for the haversine `getDistance`. */
  type Distance = (Coordinates, Coordinates) -> real

  /** An attraction with the `distance` field the `map` step adds to its copy. */
  datatype Ranked = Ranked(attraction: Attraction, distance: real)

  function RankedDistance(r: Ranked): real {
    r.distance
  }

  function RankedAttraction(r: Ranked): Attraction {
    r.attraction
  }

  /** The distance of `a` from `origin`; only ever asked of attractions with coordinates. */
  function DistanceFrom(origin: Coordinates, dist: Distance, a: Attraction): real {
    if a.coordinates.Some? then dist(origin, a.coordinates.value) else 0.0
  }

  function DistanceKey(origin: Coordinates, dist: Distance): Attraction -> real {
    a => DistanceFrom(origin, dist, a)
  }

  /** The `map` step: each candidate with its distance from `origin`. */
  function WithDistances(cands: seq<Attraction>, origin: Coordinates, dist: Distance): (r: seq<Ranked>)
    ensures |r| == |cands|
    ensures forall k :: 0 <= k < |r| ==> r[k].attraction == cands[k] && r[k].distance == DistanceFrom(origin, dist, cands[k])
  {
    if cands == [] then [] else [Ranked(cands[0], DistanceFrom(origin, dist, cands[0]))] + WithDistances(cands[1..], origin, dist)
  }

  const NearbyLimit: nat := 3

  /** `getDistance` reading the coordinates of an attraction that has none throws a TypeError. */
  datatype RankError = MissingOrigin

  /**
   * The cards of `renderNearbyAttractions`: at most three candidates, nearest
   * first. When the current attraction has no coordinates and there is a
   * candidate to measure, the measuring throws instead.
   */
  function NearbyCards(attractions: seq<Attraction>, current: Attraction, dist: Distance): (r: Result<seq<Ranked>, RankError>)
    ensures r.Failure? <==> current.coordinates.None? && Candidates(attractions, current.id) != []
    ensures r.Success? ==> |r.value| == if |Candidates(attractions, current.id)| <= NearbyLimit then |Candidates(attractions, current.id)| else NearbyLimit
    ensures r.Success? ==> forall k :: 0 <= k < |r.value| ==> r.value[k].attraction in attractions && IsCandidate(r.value[k].attraction, current.id)
    ensures r.Success? ==> SortedBy(r.value, RankedDistance)
  {
    var cands := Candidates(attractions, current.id);
    if cands == [] then Success([])
    else if current.coordinates.None? then Failure(MissingOrigin)
    else
      var all := WithDistances(cands, current.coordinates.value, dist);
      var sorted := SortBy(all, RankedDistance);
      var chosen := Take(sorted, NearbyLimit);
      assert forall k :: 0 <= k < |chosen| ==> chosen[k] in multiset(all) by {
        forall k | 0 <= k < |chosen| ensures chosen[k] in multiset(all) {
          assert chosen[k] == sorted[k];
          assert sorted[k] in multiset(sorted);
        }
      }
      Success(chosen)
  }

  /** In a sorted sequence, nothing after the first `m` elements has a smaller key than any of them. */
  lemma SortedPrefixIsSmallest<T>(s: seq<T>, key: T -> real, m: nat)
    requires SortedBy(s, key) && m <= |s|
    ensures multiset(s) - multiset(s[..m]) == multiset(s[m..])
    ensures forall x, k :: x in multiset(s) - multiset(s[..m]) && 0 <= k < m ==> key(s[k]) <= key(x)
  {
    assert s == s[..m] + s[m..];
    assert multiset(s) == multiset(s[..m]) + multiset(s[m..]);
    forall x, k | x in multiset(s[m..]) && 0 <= k < m
      ensures key(s[k]) <= key(x)
    {
      var j :| 0 <= j < |s[m..]| && s[m..][j] == x;
      assert s[m + j] == x;
    }
  }

  /** Every entry the `map` step produces carries the distance of its own attraction. */
  lemma MeasuredFromOrigin(cands: seq<Attraction>, origin: Coordinates, dist: Distance, x: Ranked)
    requires x in multiset(WithDistances(cands, origin, dist))
    ensures x.attraction in cands && x.distance == DistanceFrom(origin, dist, x.attraction)
  {
    var all := WithDistances(cands, origin, dist);
    var j :| 0 <= j < |all| && all[j] == x;
  }

  lemma NearbyCardsAreSortedPrefix(attractions: seq<Attraction>, current: Attraction, dist: Distance, origin: Coordinates)
    requires current.coordinates == Some(origin)
    ensures NearbyCards(attractions, current, dist)
      == Success(Take(SortBy(WithDistances(Candidates(attractions, current.id), origin, dist), RankedDistance), NearbyLimit))
  {
  }

  /** The first `n` of a sorted copy are a sub-multiset, and nothing left out has a smaller key. */
  lemma TakeSortedIsSmallest<T>(s: seq<T>, key: T -> real, n: nat)
    ensures multiset(Take(SortBy(s, key), n)) <= multiset(s)
    ensures forall x, k ::
      (x in multiset(s) - multiset(Take(SortBy(s, key), n)) && 0 <= k < |Take(SortBy(s, key), n)| ==>
        key(Take(SortBy(s, key), n)[k]) <= key(x))
  {
    var sorted := SortBy(s, key);
    var chosen := Take(sorted, n);
    assert chosen == sorted[..|chosen|];
    SortedPrefixIsSmallest(sorted, key, |chosen|);
  }

  /**
   * The cards are the nearest candidates: every candidate left out is at
   * least as far from the current attraction as every card shown.
   */
  lemma NearbyCardsAreNearest(attractions: seq<Attraction>, current: Attraction, dist: Distance, origin: Coordinates)
    requires current.coordinates == Some(origin)
    ensures NearbyCards(attractions, current, dist).Success?
    ensures var cards := NearbyCards(attractions, current, dist).value;
      var all := WithDistances(Candidates(attractions, current.id), origin, dist);
      multiset(cards) <= multiset(all) &&
      forall x, k :: x in multiset(all) - multiset(cards) && 0 <= k < |cards| ==> cards[k].distance <= x.distance
  {
    var all := WithDistances(Candidates(attractions, current.id), origin, dist);
    NearbyCardsAreSortedPrefix(attractions, current, dist, origin);
    TakeSortedIsSmallest(all, RankedDistance, NearbyLimit);
  }

  /** Each card shows the distance of its own attraction from the current one. */
  lemma NearbyCardsShowOwnDistance(attractions: seq<Attraction>, current: Attraction, dist: Distance, origin: Coordinates)
    requires current.coordinates == Some(origin)
    ensures NearbyCards(attractions, current, dist).Success?
    ensures var cards := NearbyCards(attractions, current, dist).value;
      forall k :: 0 <= k < |cards| ==> cards[k].distance == dist(origin, cards[k].attraction.coordinates.value)
  {
    var cands := Candidates(attractions, current.id);
    var sorted := SortBy(WithDistances(cands, origin, dist), RankedDistance);
    var cards := Take(sorted, NearbyLimit);
    NearbyCardsAreSortedPrefix(attractions, current, dist, origin);
    forall k | 0 <= k < |cards|
      ensures cards[k].distance == dist(origin, cards[k].attraction.coordinates.value)
    {
      assert cards[k] == sorted[k];
      assert sorted[k] in multiset(sorted);
      MeasuredFromOrigin(cands, origin, dist, sorted[k]);
    }
  }

  /** Candidates the same distance away keep their order in `attractions.json` among the cards. */
  lemma NearbyTiesKeepFileOrder(attractions: seq<Attraction>, current: Attraction, dist: Distance, origin: Coordinates, v: real)
    requires current.coordinates == Some(origin)
    ensures NearbyCards(attractions, current, dist).Success?
    ensures WithKey(NearbyCards(attractions, current, dist).value, RankedDistance, v)
      <= WithKey(WithDistances(Candidates(attractions, current.id), origin, dist), RankedDistance, v)
  {
    var all := WithDistances(Candidates(attractions, current.id), origin, dist);
    if Candidates(attractions, current.id) != [] {
      var sorted := SortBy(all, RankedDistance);
      SortByStable(all, RankedDistance, v);
      if |sorted| > NearbyLimit {
        WithKeyOfPrefix(sorted, NearbyLimit, RankedDistance, v);
      }
    }
  }

  /**
   * The nearby markers of `renderDetailMap`: the same filter, sorted by
   * measuring inside the comparator, first three. The map is drawn only for
   * an attraction with coordinates, which are `origin` here.
   */
  function MapNearby(attractions: seq<Attraction>, current: Attraction, origin: Coordinates, dist: Distance): (r: seq<Attraction>)
    ensures |r| <= NearbyLimit
    ensures forall k :: 0 <= k < |r| ==> r[k] in attractions && IsCandidate(r[k], current.id)
  {
    var sorted := SortBy(Candidates(attractions, current.id), DistanceKey(origin, dist));
    assert forall k :: 0 <= k < |sorted| ==> sorted[k] in multiset(Candidates(attractions, current.id));
    Take(sorted, NearbyLimit)
  }

  /** The detail map marks exactly the attractions the nearby cards show, in the same order. */
  lemma MapMarksTheNearbyCards(attractions: seq<Attraction>, current: Attraction, dist: Distance, origin: Coordinates)
    requires current.coordinates == Some(origin)
    ensures NearbyCards(attractions, current, dist).Success?
    ensures Project(NearbyCards(attractions, current, dist).value, RankedAttraction) == MapNearby(attractions, current, origin, dist)
  {
    var cands := Candidates(attractions, current.id);
    if cands != [] {
      var all := WithDistances(cands, origin, dist);
      var sorted := SortBy(all, RankedDistance);
      assert NearbyCards(attractions, current, dist) == Success(Take(sorted, NearbyLimit));
      WithDistancesCarryKey(cands, origin, dist);
      SortByProject(all, RankedAttraction, RankedDistance, DistanceKey(origin, dist));
      ProjectTake(sorted, RankedAttraction, NearbyLimit);
    }
  }

  /** The measured list projects back onto the candidates, and its distances are the comparator's. */
  lemma WithDistancesCarryKey(cands: seq<Attraction>, origin: Coordinates, dist: Distance)
    ensures KeysAgree(WithDistances(cands, origin, dist), RankedAttraction, RankedDistance, DistanceKey(origin, dist))
    ensures Project(WithDistances(cands, origin, dist), RankedAttraction) == cands
  {
    var all := WithDistances(cands, origin, dist);
    forall u | u in all ensures RankedDistance(u) == DistanceKey(origin, dist)(RankedAttraction(u)) {
      var j :| 0 <= j < |all| && all[j] == u;
    }
  }
}
