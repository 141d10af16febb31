/**
 * The homepage map of src/js/script.js, the earlier copy of the homepage
 * script: `initMap` creates the map once, and `updateMapPopups` takes the
 * markers in the `markers` table off the map and places a fresh marker for
 * every attraction with a truthy latitude.
 *
 * A marker is named by the position of its attraction in `attractions`;
 * what the map shows is a multiset of positions, because markers placed by
 * different calls for the same attraction are different Leaflet objects.
 */
module MapPopups {
  import opened Wrappers
  import opened Catalog
  import opened HomeMap

  /** The markers one rebuild places: one for each of the first `n` attractions that has one. */
  function Marked(attractions: seq<Attraction>, n: nat): (r: multiset<nat>)
    requires n <= |attractions|
  {
    if n == 0 then multiset{}
    else if HasMarker(attractions[n - 1]) then Marked(attractions, n - 1) + multiset{n - 1}
    else Marked(attractions, n - 1)
  }

  /** One marker for each attraction that has one, and none for any other. */
  lemma {:induction false} MarkedMembers(attractions: seq<Attraction>, n: nat)
    requires n <= |attractions|
    ensures forall i :: i in Marked(attractions, n) <==> 0 <= i < n && HasMarker(attractions[i])
    ensures forall i :: Marked(attractions, n)[i] <= 1
  {
    if n > 0 {
      MarkedMembers(attractions, n - 1);
    }
  }

  /** No two attractions that get a marker share an id. */
  ghost predicate MarkedIdsDistinct(attractions: seq<Attraction>) {
    forall i, j :: 0 <= i < j < |attractions| && HasMarker(attractions[i]) && HasMarker(attractions[j]) ==>
      attractions[i].id != attractions[j].id
  }

  /**
   * The `markers` table reaches every placed marker exactly when no two
   * marked attractions share an id; with a duplicate, the earlier marker is
   * overwritten and no longer in the table.
   */
  lemma TableReachesEveryMarker(attractions: seq<Attraction>)
    ensures multiset(MarkerTable(attractions, |attractions|).Values) == Marked(attractions, |attractions|) <==>
      MarkedIdsDistinct(attractions)
  {
    var m := MarkerTable(attractions, |attractions|);
    if MarkedIdsDistinct(attractions) {
      TableReachesPrefix(attractions, |attractions|);
    } else {
      var i, j :| 0 <= i < j < |attractions| && HasMarker(attractions[i]) && HasMarker(attractions[j]) &&
        attractions[i].id == attractions[j].id;
      var id := attractions[i].id;
      MarkerTableHoldsLastMarked(attractions, |attractions|, id);
      assert id in m;
      assert i !in m.Values;
      MarkedMembers(attractions, |attractions|);
      assert i in Marked(attractions, |attractions|);
    }
  }

  /** Under distinct ids, the table after `n` attractions holds each of their markers once. */
  lemma {:induction false} TableReachesPrefix(attractions: seq<Attraction>, n: nat)
    requires n <= |attractions| && MarkedIdsDistinct(attractions)
    ensures multiset(MarkerTable(attractions, n).Values) == Marked(attractions, n)
  {
    if n > 0 {
      TableReachesPrefix(attractions, n - 1);
      var prev := MarkerTable(attractions, n - 1);
      var last: nat := n - 1;
      var a := attractions[last];
      if HasMarker(a) {
        MarkerTableHoldsLastMarked(attractions, last, a.id);
        assert a.id !in prev;
        assert last !in prev.Values;
        ValuesOfNewEntry(prev, a.id, last);
      }
    }
  }

  /** A new key with a new value adds that value to the values once. */
  lemma ValuesOfNewEntry(m: map<string, nat>, k: string, v: nat)
    requires k !in m && v !in m.Values
    ensures multiset(m[k := v].Values) == multiset(m.Values) + multiset{v}
  {
    var m' := m[k := v];
    forall x | x in m'.Values
      ensures x in m.Values + {v}
    {
      var j :| j in m' && m'[j] == x;
      if j != k {
        assert m[j] == x;
      }
    }
    forall x | x in m.Values
      ensures x in m'.Values
    {
      var j :| j in m && m[j] == x;
      assert m'[j] == x;
    }
    assert m'[k] == v;
    assert m'.Values == m.Values + {v};
  }

  /**
   * What the map shows after `updateMapPopups` as written: the markers it
   * could reach through the table are removed, and a fresh marker is placed
   * for every marked attraction.
   */
  function AsWrittenUpdate(onMap: multiset<nat>, markers: map<string, nat>, attractions: seq<Attraction>): (r: multiset<nat>)
    ensures Marked(attractions, |attractions|) <= r
  {
    (onMap - multiset(markers.Values)) + Marked(attractions, |attractions|)
  }

  /** Starting from a map that shows exactly the table's markers, one update as written shows exactly the marked attractions. */
  lemma AsWrittenFromConsistent(onMap: multiset<nat>, markers: map<string, nat>, attractions: seq<Attraction>)
    requires onMap == multiset(markers.Values)
    ensures AsWrittenUpdate(onMap, markers, attractions) == Marked(attractions, |attractions|)
  {
    assert onMap - multiset(markers.Values) == multiset{};
  }

  /**
   * From a map that shows exactly the table's markers, the update as written
   * again leaves a map that shows exactly the new table's markers if and only
   * if no two marked attractions share an id.
   */
  lemma AsWrittenStaysConsistent(onMap: multiset<nat>, markers: map<string, nat>, attractions: seq<Attraction>)
    requires onMap == multiset(markers.Values)
    ensures AsWrittenUpdate(onMap, markers, attractions) == multiset(MarkerTable(attractions, |attractions|).Values) <==>
      MarkedIdsDistinct(attractions)
  {
    AsWrittenFromConsistent(onMap, markers, attractions);
    TableReachesEveryMarker(attractions);
  }

  /**
   * Two attractions with the id `"x"` and a latitude: after two updates as
   * written, starting from an empty map, the first attraction's marker from
   * the first update is still on the map beside the fresh one.
   */
  lemma DuplicateIdLeavesStaleMarker()
    ensures var attractions := [Attraction("x", "美食", Some(Coordinates(1.0, 1.0, false)), "", [], ""),
                                Attraction("x", "美食", Some(Coordinates(2.0, 2.0, false)), "", [], "")];
      var onMap1 := AsWrittenUpdate(multiset{}, map[], attractions);
      var onMap2 := AsWrittenUpdate(onMap1, MarkerTable(attractions, 2), attractions);
      onMap2 == multiset{0, 0, 1} && onMap2 != Marked(attractions, 2)
  {
    var attractions := [Attraction("x", "美食", Some(Coordinates(1.0, 1.0, false)), "", [], ""),
                        Attraction("x", "美食", Some(Coordinates(2.0, 2.0, false)), "", [], "")];
    assert Marked(attractions, 2) == multiset{0, 1};
    var m := MarkerTable(attractions, 2);
    assert m == map["x" := 1];
    assert m.Values == {1} by {
      assert m["x"] == 1;
    }
  }

  /** The homepage app; `leafletLoaded` says whether the Leaflet library is present. */
  class HomePage {
    const leafletLoaded: bool

    var attractions: seq<Attraction>
    var mapsCreated: nat                 // maps created so far; the latest is `this.map`
    var mapReady: bool                   // `this.map` is set
    var markers: map<string, nat>
    var onMap: multiset<nat>             // the markers the map shows
    var focus: Option<nat>               // the marker last flown to and opened

    constructor(leafletLoaded: bool, attractions: seq<Attraction>)
      ensures this.leafletLoaded == leafletLoaded && this.attractions == attractions
      ensures mapsCreated == 0 && !mapReady && markers == map[] && onMap == multiset{} && focus.None?
    {
      this.leafletLoaded := leafletLoaded;
      this.attractions := attractions;
      mapsCreated := 0;
      mapReady := false;
      markers := map[];
      onMap := multiset{};
      focus := None;
    }

    /** The `forEach` of `updateMapPopups`: a fresh marker and table entry for each attraction with a latitude. */
    method PlaceMarkers()
      requires markers == map[]
      modifies this`markers, this`onMap
      ensures markers == MarkerTable(attractions, |attractions|)
      ensures onMap == old(onMap) + Marked(attractions, |attractions|)
    {
      for n := 0 to |attractions|
        modifies this`markers, this`onMap
        invariant markers == MarkerTable(attractions, n)
        invariant onMap == old(onMap) + Marked(attractions, n)
      {
        var a := attractions[n];
        if a.coordinates.Some? && a.coordinates.value.lat != 0.0 {
          onMap := onMap + multiset{n};
          markers := markers[a.id := n];
        }
      }
    }

    /**
     * `updateMapPopups` as written: nothing happens without a map; otherwise
     * the markers reachable through `Object.values(this.markers)` are removed
     * and the table is rebuilt.
     */
    method UpdateMapPopupsAsWritten()
      modifies this`markers, this`onMap
      ensures !mapReady ==> markers == old(markers) && onMap == old(onMap)
      ensures mapReady ==> markers == MarkerTable(attractions, |attractions|)
      ensures mapReady ==> onMap == AsWrittenUpdate(old(onMap), old(markers), attractions)
    {
      if !mapReady {
        return;
      }
      RemoveTableMarkers();
      markers := map[];
      PlaceMarkers();
    }

    /** `Object.values(this.markers).forEach(marker => marker.removeFrom(this.map))`. */
    method RemoveTableMarkers()
      modifies this`onMap
      ensures onMap == old(onMap) - multiset(markers.Values)
    {
      var values := markers.Values;
      var remaining := values;
      while remaining != {}
        modifies this`onMap
        invariant remaining <= values
        invariant onMap == old(onMap) - multiset(values - remaining)
        decreases remaining
      {
        var marker :| marker in remaining;
        RemoveOneMore(old(onMap), values - remaining, marker);
        assert (values - remaining) + {marker} == values - (remaining - {marker});
        onMap := onMap - multiset{marker};
        remaining := remaining - {marker};
      }
      assert values - remaining == values;
    }

    /**
     * `updateMapPopups` with every placed marker removed, not only those the
     * table still reaches: afterwards the map shows exactly one marker per
     * attraction with a latitude, whatever it showed before.
     */
    method UpdateMapPopups()
      modifies this`markers, this`onMap
      ensures !mapReady ==> markers == old(markers) && onMap == old(onMap)
      ensures mapReady ==> markers == MarkerTable(attractions, |attractions|)
      ensures mapReady ==> onMap == Marked(attractions, |attractions|)
    {
      if !mapReady {
        return;
      }
      onMap := multiset{};
      markers := map[];
      PlaceMarkers();
    }

    /**
     * `initMap`: without Leaflet nothing happens; once the map exists a
     * second call only rebuilds the markers, with `updateMapPopups` as
     * written; otherwise one map is created.
     */
    method InitMap()
      modifies this`mapsCreated, this`mapReady, this`markers, this`onMap
      ensures mapReady == (old(mapReady) || leafletLoaded)
      ensures mapsCreated == if leafletLoaded && !old(mapReady) then old(mapsCreated) + 1 else old(mapsCreated)
      ensures !(leafletLoaded && old(mapReady)) ==> markers == old(markers) && onMap == old(onMap)
      ensures leafletLoaded && old(mapReady) ==>
        markers == MarkerTable(attractions, |attractions|) && onMap == AsWrittenUpdate(old(onMap), old(markers), attractions)
    {
      if !leafletLoaded {
        return;
      }
      if mapReady {
        UpdateMapPopupsAsWritten();
        return;
      }
      mapsCreated := mapsCreated + 1;
      mapReady := true;
    }

    /** `panToMarker(id)`: flies to and opens the marker of `id`, and does nothing for an id without one. */
    method PanToMarker(id: string)
      modifies this`focus
      ensures id in markers ==> focus == Some(markers[id])
      ensures id !in markers ==> focus == old(focus)
    {
      if id in markers {
        focus := Some(markers[id]);
      }
    }
  }

  /** Taking one more marker off the map removes one more copy of it. */
  lemma RemoveOneMore(onMap: multiset<nat>, removed: set<nat>, marker: nat)
    requires marker !in removed
    ensures onMap - multiset(removed) - multiset{marker} == onMap - multiset(removed + {marker})
  {
    assert multiset(removed + {marker}) == multiset(removed) + multiset{marker};
  }
}
