/**
 * The homepage map of toku-trip/src/js/script.js: the `markers` table keyed
 * by attraction id, the per-category layers, the filter buttons and the
 * `'All'`/single-category filter.
 *
 * A marker is named by the position in `attractions` of the attraction it
 * was made for, and a Leaflet layer by the set of markers it holds; the map,
 * the cluster group and the popups are reduced to those sets.
 */
module HomeMap {
  import opened Wrappers
  import opened Catalog

  /** `attraction.coordinates && attraction.coordinates.lat`: a latitude of 0 is falsy and gets no marker. */
  predicate HasMarker(a: Attraction) {
    a.coordinates.Some? && a.coordinates.value.lat != 0.0
  }

  /**
   * The `markers` table after the first `n` attractions: each id with a
   * marker maps to the last attraction of that id that has one.
   */
  function MarkerTable(attractions: seq<Attraction>, n: nat): (m: map<string, nat>)
    requires n <= |attractions|
    ensures forall id :: id in m ==> m[id] < n && HasMarker(attractions[m[id]]) && attractions[m[id]].id == id
  {
    if n == 0 then map[]
    else if HasMarker(attractions[n - 1]) then MarkerTable(attractions, n - 1)[attractions[n - 1].id := n - 1]
    else MarkerTable(attractions, n - 1)
  }

  /**
   * Exactly the ids of attractions with a marker are in the table, and each
   * points at the last such attraction: a later duplicate id overwrites.
   */
  lemma {:induction false} MarkerTableHoldsLastMarked(attractions: seq<Attraction>, n: nat, id: string)
    requires n <= |attractions|
    ensures id in MarkerTable(attractions, n) <==> exists i :: 0 <= i < n && HasMarker(attractions[i]) && attractions[i].id == id
    ensures id in MarkerTable(attractions, n) ==>
      forall j :: MarkerTable(attractions, n)[id] < j < n ==> !(HasMarker(attractions[j]) && attractions[j].id == id)
  {
    if n > 0 {
      MarkerTableHoldsLastMarked(attractions, n - 1, id);
    }
  }

  /** The markers of the first `n` attractions whose category is `category`. */
  function LayerContents(attractions: seq<Attraction>, n: nat, category: string): (r: set<nat>)
    requires n <= |attractions|
  {
    set i | 0 <= i < n && HasMarker(attractions[i]) && attractions[i].category == category
  }

  lemma LayerContentsStep(attractions: seq<Attraction>, n: nat, category: string)
    requires n < |attractions|
    ensures LayerContents(attractions, n + 1, category) ==
      LayerContents(attractions, n, category) + (if HasMarker(attractions[n]) && attractions[n].category == category then {n} else {})
  {
  }

  /**
   * The keys of `categoryLayers` after the first `n` attractions, starting
   * from `keys`: each category not seen before is appended, in the order of
   * its first attraction (insertion order of `Object.keys`).
   */
  function LayerKeys(keys: seq<string>, attractions: seq<Attraction>, n: nat): (r: seq<string>)
    requires n <= |attractions|
    ensures keys <= r
  {
    if n == 0 then keys
    else
      var prev := LayerKeys(keys, attractions, n - 1);
      if attractions[n - 1].category in prev then prev else prev + [attractions[n - 1].category]
  }

  /**
   * Every attraction's category gets a key, even without a marker; every key
   * is an old one or some attraction's category; and no key appears twice.
   */
  lemma {:induction false} LayerKeysCover(keys: seq<string>, attractions: seq<Attraction>, n: nat)
    requires n <= |attractions|
    ensures forall i :: 0 <= i < n ==> attractions[i].category in LayerKeys(keys, attractions, n)
    ensures forall k :: k in LayerKeys(keys, attractions, n) ==> k in keys || exists i :: 0 <= i < n && attractions[i].category == k
    ensures Distinct(keys) ==> Distinct(LayerKeys(keys, attractions, n))
  {
    if n > 0 {
      LayerKeysCover(keys, attractions, n - 1);
      var prev := LayerKeys(keys, attractions, n - 1);
      forall k | k in LayerKeys(keys, attractions, n)
        ensures k in keys || exists i :: 0 <= i < n && attractions[i].category == k
      {
        if k in prev {
          if k !in keys {
            var i :| 0 <= i < n - 1 && attractions[i].category == k;
          }
        }
      }
    }
  }

  ghost predicate Distinct<T>(s: seq<T>) {
    forall i, j :: 0 <= i < j < |s| ==> s[i] != s[j]
  }

  /** The union of the layers named by `keys`. */
  function UnionOf(layers: map<string, set<nat>>, keys: seq<string>): (r: set<nat>)
    requires forall k :: k in keys ==> k in layers
    ensures forall x :: x in r <==> exists k :: k in keys && x in layers[k]
  {
    if keys == [] then {}
    else
      var rest := UnionOf(layers, keys[1..]);
      assert forall k :: k in keys <==> k == keys[0] || k in keys[1..];
      layers[keys[0]] + rest
  }

  /** What the cluster group shows for a filter: every layer for `'All'`, the named layer, or nothing for an unknown key. */
  function Shown(layers: map<string, set<nat>>, keys: seq<string>, filter: string): (r: set<nat>)
    requires forall k :: k in keys ==> k in layers
    ensures filter == "All" ==> forall x :: x in r <==> exists k :: k in keys && x in layers[k]
    ensures filter != "All" && filter in layers ==> r == layers[filter]
    ensures filter != "All" && filter !in layers ==> r == {}
  {
    if filter == "All" then UnionOf(layers, keys)
    else if filter in layers then layers[filter]
    else {}
  }

  /** The markers of all attractions that have one. */
  function AllMarked(attractions: seq<Attraction>): set<nat> {
    set i | 0 <= i < |attractions| && HasMarker(attractions[i])
  }

  /**
   * After the layers are rebuilt from `attractions`, the `'All'` filter
   * shows the marker of every attraction that has one, and nothing else.
   */
  lemma AllShowsEveryMarker(attractions: seq<Attraction>, keys: seq<string>, layers: map<string, set<nat>>)
    requires keys == LayerKeys(keys, attractions, |attractions|)
    requires forall k :: k in keys ==> k in layers && layers[k] == LayerContents(attractions, |attractions|, k)
    ensures Shown(layers, keys, "All") == AllMarked(attractions)
  {
    var shown := Shown(layers, keys, "All");
    LayerKeysCover(keys, attractions, |attractions|);
    forall x | x in AllMarked(attractions)
      ensures x in shown
    {
      var k := attractions[x].category;
      assert k in keys && x in layers[k];
    }
  }

  /** A map filter button: its `data-filter` and whether it carries `active`. */
  datatype FilterButton = FilterButton(filter: string, active: bool)

  /** The homepage app. `leafletLoaded` and `hasFilters` say whether Leaflet and `#map-filters` exist. */
  class App {
    const leafletLoaded: bool
    const hasFilters: bool

    var attractions: seq<Attraction>
    var mapsCreated: nat                 // maps created so far; the latest is `this.map`
    var mapReady: bool                   // `this.map` and its cluster group exist
    var markers: map<string, nat>
    var layerKeys: seq<string>           // `Object.keys(this.categoryLayers)`
    var layers: map<string, set<nat>>    // the markers each category layer holds
    var clustered: set<nat>              // the markers shown by the cluster group
    var buttons: seq<FilterButton>
    var focus: Option<nat>               // the marker last flown to and opened

    /** The category layers are named by `layerKeys`, each once; without `#map-filters` there are no filter buttons. */
    ghost predicate Valid()
      reads this
    {
      Distinct(layerKeys) && (forall k :: k in layers <==> k in layerKeys) && (!hasFilters ==> buttons == [])
    }

    constructor(leafletLoaded: bool, hasFilters: bool)
      ensures this.leafletLoaded == leafletLoaded && this.hasFilters == hasFilters
      ensures attractions == [] && mapsCreated == 0 && !mapReady && markers == map[]
      ensures layerKeys == [] && layers == map[] && clustered == {} && buttons == [] && focus.None?
      ensures Valid()
    {
      this.leafletLoaded := leafletLoaded;
      this.hasFilters := hasFilters;
      attractions := [];
      mapsCreated := 0;
      mapReady := false;
      markers := map[];
      layerKeys := [];
      layers := map[];
      clustered := {};
      buttons := [];
      focus := None;
    }

    /** `loadAttractions`: the list is replaced only by a successful load. */
    method LoadAttractions(data: Option<seq<Attraction>>)
      modifies this`attractions
      ensures attractions == if data.Some? then data.value else old(attractions)
    {
      if data.Some? {
        attractions := data.value;
      }
    }

    /** `initMap`: without Leaflet nothing happens; otherwise a new map with an empty cluster group replaces any old one. */
    method InitMap()
      modifies this`mapsCreated, this`mapReady, this`clustered
      ensures !leafletLoaded ==> mapsCreated == old(mapsCreated) && mapReady == old(mapReady) && clustered == old(clustered)
      ensures leafletLoaded ==> mapsCreated == old(mapsCreated) + 1 && mapReady && clustered == {}
    {
      if !leafletLoaded {
        return;
      }
      mapsCreated := mapsCreated + 1;
      mapReady := true;
      clustered := {};
    }

    /**
     * `createMarkers`: empties the cluster group and every layer, discards
     * the old table, then gives each attraction's category a layer and each
     * attraction with a marker its table entry and a place in that layer.
     */
    method CreateMarkers()
      requires Valid()
      modifies this`markers, this`layerKeys, this`layers, this`clustered
      ensures Valid()
      ensures !mapReady ==> markers == old(markers) && layerKeys == old(layerKeys) && layers == old(layers) && clustered == old(clustered)
      ensures mapReady ==> markers == MarkerTable(attractions, |attractions|)
      ensures mapReady ==> layerKeys == LayerKeys(old(layerKeys), attractions, |attractions|)
      ensures mapReady ==> forall k :: k in layers ==> layers[k] == LayerContents(attractions, |attractions|, k)
      ensures mapReady ==> clustered == {}
    {
      if !mapReady {
        return;
      }
      clustered := {};
      ClearLayers();
      markers := map[];
      forall k | k in layers
        ensures layers[k] == LayerContents(attractions, 0, k)
      {
        assert LayerContents(attractions, 0, k) == {};
      }
      AddAll();
    }

    /** The `forEach` of `createMarkers`, from the emptied table and layers. */
    method AddAll()
      requires Valid() && markers == map[]
      requires forall k :: k in layers ==> layers[k] == LayerContents(attractions, 0, k)
      modifies this`markers, this`layerKeys, this`layers
      ensures Valid()
      ensures markers == MarkerTable(attractions, |attractions|)
      ensures layerKeys == LayerKeys(old(layerKeys), attractions, |attractions|)
      ensures forall k :: k in layers ==> layers[k] == LayerContents(attractions, |attractions|, k)
    {
      ghost var keys0 := layerKeys;
      assert Built(keys0, 0);
      for n := 0 to |attractions|
        invariant Built(keys0, n)
      {
        AddAttraction(n, keys0);
      }
    }

    /** The state after the `forEach` of `createMarkers` has handled the first `n` attractions, starting from the keys `keys0`. */
    ghost predicate Built(keys0: seq<string>, n: nat)
      reads this
    {
      n <= |attractions| && Valid() &&
      markers == MarkerTable(attractions, n) &&
      layerKeys == LayerKeys(keys0, attractions, n) &&
      (forall k :: k in layers ==> layers[k] == LayerContents(attractions, n, k)) &&
      (forall i :: 0 <= i < n ==> attractions[i].category in layers)
    }

    /** `layer.clearLayers()` for every category layer. */
    method ClearLayers()
      requires Valid()
      modifies this`layers
      ensures Valid()
      ensures forall k :: k in layers ==> layers[k] == {}
    {
      for i := 0 to |layerKeys|
        invariant Valid()
        invariant forall j :: 0 <= j < i ==> layers[layerKeys[j]] == {}
      {
        layers := layers[layerKeys[i] := {}];
      }
    }

    /** One step of the `forEach` in `createMarkers`, for the attraction at `n`. */
    method AddAttraction(n: nat, ghost keys0: seq<string>)
      requires n < |attractions| && Built(keys0, n)
      modifies this`markers, this`layerKeys, this`layers
      ensures Built(keys0, n + 1)
    {
      var a := attractions[n];
      if a.category !in layers {
        layerKeys := layerKeys + [a.category];
        layers := layers[a.category := {}];
      }
      if HasMarker(a) {
        markers := markers[a.id := n];
        layers := layers[a.category := layers[a.category] + {n}];
      }
      forall k | k in layers
        ensures layers[k] == LayerContents(attractions, n + 1, k)
      {
        LayerContentsStep(attractions, n, k);
        if k !in old(layers) {
          assert LayerContents(attractions, n, k) == {};
        }
      }
    }

    /** `renderMapFilters`: one inactive button for `'All'`, then one per layer key in order. */
    method RenderMapFilters()
      modifies this`buttons
      ensures !hasFilters ==> buttons == old(buttons)
      ensures hasFilters ==> |buttons| == |layerKeys| + 1 && buttons[0] == FilterButton("All", false)
      ensures hasFilters ==> forall i :: 0 <= i < |layerKeys| ==> buttons[i + 1] == FilterButton(layerKeys[i], false)
    {
      if !hasFilters {
        return;
      }
      var categories := ["All"] + layerKeys;
      buttons := [];
      for i := 0 to |categories|
        modifies this`buttons
        invariant |buttons| == i
        invariant forall j :: 0 <= j < i ==> buttons[j] == FilterButton(categories[j], false)
      {
        buttons := buttons + [FilterButton(categories[i], false)];
      }
    }

    /**
     * `filterMarkers(filter)`: the cluster group shows what `Shown` says and
     * exactly the buttons for `filter` become active. Nothing happens before
     * the map exists.
     */
    method FilterMarkers(filter: string)
      requires Valid()
      modifies this`clustered, this`buttons
      ensures !mapReady ==> clustered == old(clustered) && buttons == old(buttons)
      ensures mapReady ==> clustered == Shown(layers, layerKeys, filter)
      ensures mapReady ==> |buttons| == |old(buttons)|
      ensures mapReady ==> forall i :: 0 <= i < |buttons| ==> buttons[i] == FilterButton(old(buttons)[i].filter, old(buttons)[i].filter == filter)
    {
      if !mapReady {
        return;
      }
      clustered := {};
      if filter == "All" {
        for i := 0 to |layerKeys|
          modifies this`clustered
          invariant clustered == UnionOf(layers, layerKeys[..i])
        {
          assert layerKeys[..i + 1] == layerKeys[..i] + [layerKeys[i]];
          clustered := clustered + layers[layerKeys[i]];
        }
        assert layerKeys[..|layerKeys|] == layerKeys;
      } else if filter in layers {
        clustered := layers[filter];
      }
      ghost var before := buttons;
      for i := 0 to |buttons|
        modifies this`buttons
        invariant |buttons| == |before|
        invariant forall j :: 0 <= j < i ==> buttons[j] == FilterButton(before[j].filter, before[j].filter == filter)
        invariant forall j :: i <= j < |buttons| ==> buttons[j] == before[j]
      {
        buttons := buttons[i := FilterButton(buttons[i].filter, buttons[i].filter == filter)];
      }
    }

    /** `panToMarker(id)`: flies to and opens the marker of `id`, and does nothing for an id without one. */
    method PanToMarker(id: string)
      modifies this`focus
      ensures id in markers ==> focus == Some(markers[id])
      ensures id !in markers ==> focus == old(focus)
    {
      if id in markers {
        focus := Some(markers[id]);
      }
    }

    /**
     * `updateLanguage` (and the data-dependent part of `init`): rebuild the
     * markers and the filter buttons, then show everything. Without a map
     * only the buttons are rebuilt. With one, the map afterwards shows every
     * attraction that has a marker, and exactly the buttons named `'All'`
     * are active.
     */
    method UpdateLanguage()
      requires Valid()
      modifies this`markers, this`layerKeys, this`layers, this`clustered, this`buttons
      ensures Valid()
      ensures !mapReady ==>
        markers == old(markers) && layerKeys == old(layerKeys) && layers == old(layers) && clustered == old(clustered)
      ensures mapReady ==> markers == MarkerTable(attractions, |attractions|) && clustered == AllMarked(attractions)
      ensures mapReady ==> layerKeys == LayerKeys(old(layerKeys), attractions, |attractions|)
      ensures mapReady ==> forall k :: k in layers ==> layers[k] == LayerContents(attractions, |attractions|, k)
      ensures !hasFilters ==> buttons == old(buttons)
      ensures hasFilters ==> |buttons| == |layerKeys| + 1 && buttons[0] == FilterButton("All", mapReady)
      ensures hasFilters ==>
        forall i :: 0 <= i < |layerKeys| ==> buttons[i + 1] == FilterButton(layerKeys[i], mapReady && layerKeys[i] == "All")
    {
      CreateMarkers();
      RenderMapFilters();
      FilterMarkers("All");
      if mapReady {
        LayerKeysStable(old(layerKeys), attractions);
        AllShowsEveryMarker(attractions, layerKeys, layers);
      }
    }
  }

  /** Adding the same attractions' categories a second time adds nothing. */
  lemma LayerKeysStable(keys: seq<string>, attractions: seq<Attraction>)
    ensures var r := LayerKeys(keys, attractions, |attractions|);
      r == LayerKeys(r, attractions, |attractions|)
  {
    var r := LayerKeys(keys, attractions, |attractions|);
    LayerKeysCover(keys, attractions, |attractions|);
    LayerKeysAlreadyPresent(r, attractions, |attractions|);
  }

  lemma {:induction false} LayerKeysAlreadyPresent(keys: seq<string>, attractions: seq<Attraction>, n: nat)
    requires n <= |attractions|
    requires forall i :: 0 <= i < n ==> attractions[i].category in keys
    ensures LayerKeys(keys, attractions, n) == keys
  {
    if n > 0 {
      LayerKeysAlreadyPresent(keys, attractions, n - 1);
    }
  }
}
