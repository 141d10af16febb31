/**
 * The attraction detail page, in its three copies (toku-trip/src/js,
 * js and src/js detail.js): loading the attraction named by the `id` URL
 * parameter, the error panel, the gallery and its lightbox, the panorama
 * container, the nearby cards and the detail map.
 *
 * The fetch of attractions.json is an input (`None` when the response is not
 * OK); the URL parameter is an input; Leaflet, Pannellum and the DOM are
 * reduced to the state the scripts set on them.
 */
module Detail {
  import opened Wrappers
  import opened Text
  import opened Catalog
  import opened Ranking
  import I18n

  /** The three copies of the detail script. */
  datatype Copy =
    | TokuTrip  // toku-trip/src/js/detail.js: lightbox, detail map, translated errors
    | SiteRoot  // js/detail.js: panorama, translated errors
    | Src       // src/js/detail.js: English error literals

  /** Why the page shows its error panel instead of the attraction. */
  datatype PageError =
    | MissingId            // no `id` URL parameter, or an empty one
    | DatabaseUnavailable  // the response for attractions.json was not OK
    | NotFound             // no attraction has the requested id
    | ScriptError          // a TypeError thrown while rendering; its text comes from the engine

  /** The i18n key of an error's message in the translated copies. */
  function ErrorKey(e: PageError): string
    requires !e.ScriptError?
  {
    match e
    case MissingId => "error_missing_id"
    case DatabaseUnavailable => "error_db_load"
    case NotFound => "error_not_found"
  }

  /** The English literals of src/js/detail.js. */
  function SrcMessage(e: PageError): string
    requires !e.ScriptError?
  {
    match e
    case MissingId => "Attraction ID is missing."
    case DatabaseUnavailable => "Could not load attraction database."
    case NotFound => "Attraction not found."
  }

  /**
   * The text `renderError` shows for `e`: the translation of its key, which
   * is the key itself when the dictionary lacks it, or src's literal. A
   * script error's text is the engine's and is not modelled.
   */
  function ErrorMessage(copy: Copy, e: PageError, dict: I18n.Dictionary): (r: Option<string>)
    ensures r.None? <==> e.ScriptError?
    ensures !e.ScriptError? && copy != Src && ErrorKey(e) !in dict ==> r == Some(ErrorKey(e))
    ensures !e.ScriptError? && copy != Src && ErrorKey(e) in dict ==> r == Some(dict[ErrorKey(e)])
  {
    if e.ScriptError? then None
    else if copy == Src then Some(SrcMessage(e))
    else Some(I18n.Translation(dict, ErrorKey(e), []))
  }

  /** Each error the page reports itself gets a message of its own, in src and, untranslated, in the other copies. */
  lemma ErrorMessagesDiffer(copy: Copy, e1: PageError, e2: PageError)
    requires !e1.ScriptError? && !e2.ScriptError? && e1 != e2
    ensures ErrorMessage(copy, e1, map[]) != ErrorMessage(copy, e2, map[])
  {
    if copy == Src {
      assert SrcMessage(e1)[0] != SrcMessage(e2)[0] || SrcMessage(e1)[11] != SrcMessage(e2)[11];
    } else {
      assert ErrorKey(e1)[6] != ErrorKey(e2)[6];
    }
  }

  /** A JavaScript number as far as the lightbox index needs: an integer, or NaN after `% 0`. */
  datatype JsNumber = Finite(n: int) | NaN

  function JsAdd(a: JsNumber, k: int): JsNumber {
    match a
    case NaN => NaN
    case Finite(x) => Finite(x + k)
  }

  /** JavaScript's `a % n`: the remainder takes the sign of `a`, and a zero divisor gives NaN. */
  function JsRem(a: JsNumber, n: nat): (r: JsNumber)
    ensures r.Finite? <==> a.Finite? && n > 0
    ensures r.Finite? && a.n >= 0 ==> 0 <= r.n < n
  {
    if a.NaN? || n == 0 then NaN
    else if a.n >= 0 then Finite(a.n % n)
    else Finite(-((-a.n) % n))
  }

  /** `showNextImage`: `(i + 1) % n`. */
  function NextIndex(i: JsNumber, n: nat): JsNumber {
    JsRem(JsAdd(i, 1), n)
  }

  /** `showPrevImage`: `(i - 1 + n) % n`. */
  function PrevIndex(i: JsNumber, n: nat): JsNumber {
    JsRem(JsAdd(JsAdd(i, -1), n), n)
  }

  /** With `n > 0` images, next and previous keep an index in `[0, n)` there, and each undoes the other. */
  lemma NextPrevInRange(i: int, n: nat)
    requires 0 <= i < n
    ensures NextIndex(Finite(i), n).Finite? && 0 <= NextIndex(Finite(i), n).n < n
    ensures PrevIndex(Finite(i), n).Finite? && 0 <= PrevIndex(Finite(i), n).n < n
    ensures PrevIndex(NextIndex(Finite(i), n), n) == Finite(i)
    ensures NextIndex(PrevIndex(Finite(i), n), n) == Finite(i)
  {
    var next := if i + 1 < n then i + 1 else 0;
    var prev := if i == 0 then n - 1 else i - 1;
    NextStep(i, n, next);
    PrevStep(i, n, prev);
    PrevStep(next, n, i);
    NextStep(prev, n, i);
  }

  lemma NextStep(i: int, n: nat, r: int)
    requires 0 <= i < n && r == (if i + 1 < n then i + 1 else 0)
    ensures NextIndex(Finite(i), n) == Finite(r)
  {
    StepMod(i + 1, n, r);
  }

  lemma PrevStep(i: int, n: nat, r: int)
    requires 0 <= i < n && r == (if i == 0 then n - 1 else i - 1)
    ensures PrevIndex(Finite(i), n) == Finite(r)
  {
    StepMod(i - 1 + n, n, r);
  }

  /** `x % n` for `x` in `[0, 2n)`. */
  lemma StepMod(x: int, n: nat, r: int)
    requires 0 <= x < 2 * n && r == (if x < n then x else x - n)
    ensures x % n == r
  {
    if x < n {
      assert x == 0 * n + x;
    } else {
      assert x == 1 * n + (x - n);
    }
  }

  /** With no images the divisor is zero, and the index becomes NaN. */
  lemma EmptyGalleryIndexIsNaN(i: JsNumber)
    ensures NextIndex(i, 0) == NaN && PrevIndex(i, 0) == NaN
  {
  }

  /** `galleryImages[i]`: the URL at an index in range, `undefined` otherwise. */
  function ImageAt(images: seq<string>, i: JsNumber): (r: Option<string>)
    ensures r.Some? <==> i.Finite? && 0 <= i.n < |images|
    ensures r.Some? ==> r.value in images
  {
    if i.Finite? && 0 <= i.n < |images| then Some(images[i.n]) else None
  }

  /** How a template literal renders an integer. */
  function IntToString(x: int): string {
    if x < 0 then "-" + NatToString(-x) else NatToString(x)
  }

  function JsNumberToString(a: JsNumber): string {
    match a
    case NaN => "NaN"
    case Finite(x) => IntToString(x)
  }

  /** The lightbox caption: the one-based position, a spaced slash, the number of images. */
  function CaptionText(i: JsNumber, n: nat): string {
    JsNumberToString(JsAdd(i, 1)) + " / " + NatToString(n)
  }

  /** Reads a caption back into its position and count. */
  function ParseCaption(c: string): Option<(nat, nat)> {
    match IndexOf(c, " / ")
    case None => None
    case Some(p) =>
      var a, b := c[..p], c[p + 3..];
      if a != [] && b != [] && AllDigits(a) && AllDigits(b) then Some((ParseNat(a), ParseNat(b))) else None
  }

  /** The caption of image `i` of `n` reads back as position `i + 1` of `n`. */
  lemma CaptionRoundTrip(i: nat, n: nat)
    ensures ParseCaption(CaptionText(Finite(i), n)) == Some((i + 1, n))
  {
    var a, b := NatToString(i + 1), NatToString(n);
    var c := CaptionText(Finite(i), n);
    assert c == a + " / " + b;
    assert OccursAt(c, " / ", |a|) by {
      assert c[|a|..|a| + 3] == " / ";
    }
    forall j: nat | j < |a|
      ensures !OccursAt(c, " / ", j)
    {
      assert c[j] == a[j] && IsDigit(a[j]);
      if j + 3 <= |c| {
        assert c[j..j + 3][0] == c[j];
      }
    }
    assert IndexOf(c, " / ") == Some(|a|);
    assert c[..|a|] == a && c[|a| + 3..] == b;
    ParseNatToString(i + 1);
    ParseNatToString(n);
  }

  /** The URL of one gallery image. */
  function GalleryUrl(folder: string, name: string): string {
    "../images/" + folder + "/" + name
  }

  /** In one folder, different image names give different URLs. */
  lemma GalleryUrlInjective(folder: string, name1: string, name2: string)
    requires GalleryUrl(folder, name1) == GalleryUrl(folder, name2)
    ensures name1 == name2
  {
    var prefix := "../images/" + folder + "/";
    assert GalleryUrl(folder, name1)[|prefix|..] == name1;
    assert GalleryUrl(folder, name2)[|prefix|..] == name2;
  }

  /** One URL per entry of `gallery_images`, in order. */
  function GalleryUrls(a: Attraction): (r: seq<string>)
    ensures |r| == |a.galleryImages|
    ensures forall k :: 0 <= k < |r| ==> r[k] == GalleryUrl(a.folder, a.galleryImages[k])
  {
    seq(|a.galleryImages|, k requires 0 <= k < |a.galleryImages| => GalleryUrl(a.folder, a.galleryImages[k]))
  }

  /**
   * `renderPanorama` of js/detail.js: the container's new `display`, or
   * `None` when it is left alone (no container, or Pannellum not loaded).
   */
  function SitePanorama(hasContainer: bool, libraryLoaded: bool, image: string): (r: Option<bool>)
    ensures r.None? <==> !hasContainer || !libraryLoaded
    ensures r.Some? ==> (r.value <==> image != "")
  {
    if !hasContainer || !libraryLoaded then None else Some(image != "")
  }

  /** `renderPanorama` of src/js/detail.js, which shows the container but never hides it. */
  function SrcPanorama(hasContainer: bool, libraryLoaded: bool, image: string): (r: Option<bool>)
    ensures r != Some(false)
    ensures r == Some(true) <==> hasContainer && libraryLoaded && image != ""
  {
    if !libraryLoaded then None
    else if hasContainer && image != "" then Some(true)
    else None
  }

  /** The detail page object. The `has…` constants say which elements the page's HTML contains. */
  class DetailPage {
    const copy: Copy
    const hasGalleryContainer: bool  // #gallery-container
    const hasImageGallery: bool      // #image-gallery
    const hasModal: bool             // #lightbox-modal
    const hasViewer: bool            // #lightbox-image and #lightbox-caption
    const hasNearby: bool            // #nearby-section and #nearby-grid
    const hasMap: bool               // #detail-map
    const hasPanorama: bool          // #panorama-container
    const panoramaLoaded: bool       // the Pannellum library is defined

    var attractions: seq<Attraction>
    var current: Option<Attraction>
    var error: Option<PageError>

    var galleryShown: bool           // #gallery-container set to display: block
    var galleryItems: seq<string>    // the sources of the images in #image-gallery
    var galleryImages: seq<string>   // the lightbox's list of URLs
    var lightboxIndex: JsNumber
    var lightboxOpen: bool
    var lightboxImage: Option<string>
    var caption: string

    var nearbyShown: bool
    var nearbyCards: seq<Ranked>
    var panoramaShown: Option<bool>
    var mapShown: Option<bool>
    var mapMarkers: seq<Attraction>  // the nearby markers; the current one is always drawn

    constructor(copy: Copy, hasGalleryContainer: bool, hasImageGallery: bool, hasModal: bool, hasViewer: bool,
                hasNearby: bool, hasMap: bool, hasPanorama: bool, panoramaLoaded: bool)
      ensures this.copy == copy && this.hasGalleryContainer == hasGalleryContainer && this.hasImageGallery == hasImageGallery
      ensures this.hasModal == hasModal && this.hasViewer == hasViewer && this.hasNearby == hasNearby
      ensures this.hasMap == hasMap && this.hasPanorama == hasPanorama && this.panoramaLoaded == panoramaLoaded
      ensures attractions == [] && current.None? && error.None?
      ensures galleryImages == [] && lightboxIndex == Finite(0) && !lightboxOpen
      ensures !galleryShown && galleryItems == [] && !nearbyShown && nearbyCards == []
      ensures panoramaShown.None? && mapShown.None? && mapMarkers == [] && lightboxImage.None? && caption == ""
    {
      this.copy := copy;
      this.hasGalleryContainer := hasGalleryContainer;
      this.hasImageGallery := hasImageGallery;
      this.hasModal := hasModal;
      this.hasViewer := hasViewer;
      this.hasNearby := hasNearby;
      this.hasMap := hasMap;
      this.hasPanorama := hasPanorama;
      this.panoramaLoaded := panoramaLoaded;
      attractions := [];
      current := None;
      error := None;
      galleryShown := false;
      galleryItems := [];
      galleryImages := [];
      lightboxIndex := Finite(0);
      lightboxOpen := false;
      lightboxImage := None;
      caption := "";
      nearbyShown := false;
      nearbyCards := [];
      panoramaShown := None;
      mapShown := None;
      mapMarkers := [];
    }

    /**
     * `loadAttractionData(id)` with the fetched database `data`: keeps the
     * list, selects the first attraction with the id, and reports an error
     * when the database is missing or the id unknown.
     */
    method LoadAttractionData(id: string, data: Option<seq<Attraction>>) returns (err: Option<PageError>)
      modifies this`attractions, this`current
      ensures data.None? ==> err == Some(DatabaseUnavailable) && attractions == old(attractions) && current == old(current)
      ensures data.Some? ==> attractions == data.value
      ensures data.Some? && FindIndex(data.value, id).None? ==> err == Some(NotFound) && current.None?
      ensures data.Some? && FindIndex(data.value, id).Some? ==>
        err.None? && current == Some(data.value[FindIndex(data.value, id).value])
    {
      if data.None? {
        return Some(DatabaseUnavailable);
      }
      attractions := data.value;
      match FindIndex(attractions, id)
      case None =>
        current := None;
        return Some(NotFound);
      case Some(k) =>
        current := Some(attractions[k]);
        return None;
    }

    /**
     * Whether rendering the nearby cards throws for `current`: the section
     * exists, the attraction has no coordinates, and some candidate must be
     * measured from them (`NearbyCards` fails exactly then).
     */
    predicate NearbyFails()
      reads this`current, this`attractions
    {
      current.Some? && hasNearby && current.value.coordinates.None? && Candidates(attractions, current.value.id) != []
    }

    /**
     * `init` after the translations are loaded: a missing or empty `id`
     * stops before any load; a failed load or an unknown id, and a throw
     * while rendering, end on the error panel. A load error renders nothing.
     */
    method Init(idParam: Option<string>, data: Option<seq<Attraction>>, dist: Distance)
      requires current.None? && error.None?
      modifies this`attractions, this`current, this`error
      modifies this`galleryShown, this`galleryItems, this`galleryImages, this`panoramaShown
      modifies this`nearbyShown, this`nearbyCards, this`mapShown, this`mapMarkers
      ensures idParam.None? || idParam == Some("") ==> error == Some(MissingId) && attractions == old(attractions) && current.None?
      ensures idParam.Some? && idParam.value != "" && data.None? ==>
        error == Some(DatabaseUnavailable) && attractions == old(attractions) && current.None?
      ensures idParam.Some? && idParam.value != "" && data.Some? ==> attractions == data.value
      ensures idParam.Some? && idParam.value != "" && data.Some? && FindIndex(data.value, idParam.value).None? ==>
        error == Some(NotFound) && current.None?
      ensures error in {Some(MissingId), Some(DatabaseUnavailable), Some(NotFound)} ==>
        galleryShown == old(galleryShown) && galleryItems == old(galleryItems) && galleryImages == old(galleryImages) &&
        panoramaShown == old(panoramaShown) && nearbyShown == old(nearbyShown) && nearbyCards == old(nearbyCards) &&
        mapShown == old(mapShown) && mapMarkers == old(mapMarkers)
      ensures idParam.Some? && idParam.value != "" && data.Some? && FindIndex(data.value, idParam.value).Some? ==>
        current == Some(data.value[FindIndex(data.value, idParam.value).value]) &&
        (error == Some(ScriptError) <==> NearbyFails()) &&
        (error != Some(ScriptError) ==> error.None?) &&
        PageRendered(dist, error, old(galleryShown), old(galleryItems), old(galleryImages), old(panoramaShown),
                     old(nearbyShown), old(nearbyCards), old(mapShown), old(mapMarkers))
    {
      if idParam.None? || idParam.value == "" {
        error := Some(MissingId);
        return;
      }
      var err := LoadAttractionData(idParam.value, data);
      if err.Some? {
        error := err;
        return;
      }
      err := RenderPage(dist);
      error := err;
    }

    /**
     * The page after `renderPage` of an attraction: toku-trip renders the
     * gallery, the nearby cards and the map; js and src the gallery, the
     * panorama and the nearby cards. A throw from the nearby cards (`err`)
     * leaves the nearby section and the map as they were.
     */
    predicate PageRendered(dist: Distance, err: Option<PageError>, shown0: bool, items0: seq<string>, images0: seq<string>,
                           panorama0: Option<bool>, nearby0: bool, cards0: seq<Ranked>, map0: Option<bool>, markers0: seq<Attraction>)
      requires current.Some?
      reads this`current, this`attractions, this`galleryShown, this`galleryItems, this`galleryImages, this`panoramaShown
      reads this`nearbyShown, this`nearbyCards, this`mapShown, this`mapMarkers
    {
      GalleryRendered(current.value, shown0, items0, images0) &&
      panoramaShown == (if copy == TokuTrip then panorama0 else PanoramaAfter(current.value, panorama0)) &&
      (err.None? ==> NearbyRendered(NearbyCards(attractions, current.value, dist), nearby0, cards0)) &&
      (err.Some? ==> nearbyShown == nearby0 && nearbyCards == cards0) &&
      (if copy == TokuTrip && err.None? then MapRendered(dist, map0, markers0)
       else mapShown == map0 && mapMarkers == markers0)
    }

    /**
     * `renderPage`: toku-trip and js return early without an attraction;
     * otherwise the page is rendered as `PageRendered` says. src reads the
     * attraction unconditionally, so it is only called with one.
     */
    method RenderPage(dist: Distance) returns (err: Option<PageError>)
      requires copy == Src ==> current.Some?
      modifies this`galleryShown, this`galleryItems, this`galleryImages, this`panoramaShown
      modifies this`nearbyShown, this`nearbyCards, this`mapShown, this`mapMarkers
      ensures err == Some(ScriptError) <==> NearbyFails()
      ensures err != Some(ScriptError) ==> err.None?
      ensures current.None? ==> unchanged(this)
      ensures current.Some? ==>
        PageRendered(dist, err, old(galleryShown), old(galleryItems), old(galleryImages), old(panoramaShown),
                     old(nearbyShown), old(nearbyCards), old(mapShown), old(mapMarkers))
    {
      if current.None? {
        return None;
      }
      if copy == TokuTrip {
        err := RenderTokuTripPage(dist);
      } else {
        RenderGallery();
        RenderPanorama();
        err := RenderNearby(dist);
      }
    }

    /** The toku-trip render: gallery, nearby cards, and the map unless the cards threw. */
    method RenderTokuTripPage(dist: Distance) returns (err: Option<PageError>)
      requires current.Some? && copy == TokuTrip
      modifies this`galleryShown, this`galleryItems, this`galleryImages
      modifies this`nearbyShown, this`nearbyCards, this`mapShown, this`mapMarkers
      ensures err == Some(ScriptError) <==> NearbyFails()
      ensures err != Some(ScriptError) ==> err.None?
      ensures GalleryRendered(current.value, old(galleryShown), old(galleryItems), old(galleryImages))
      ensures err.None? ==> NearbyRendered(NearbyCards(attractions, current.value, dist), old(nearbyShown), old(nearbyCards)) && MapRendered(dist, old(mapShown), old(mapMarkers))
      ensures err.Some? ==> nearbyShown == old(nearbyShown) && nearbyCards == old(nearbyCards)
      ensures err.Some? ==> mapShown == old(mapShown) && mapMarkers == old(mapMarkers)
    {
      RenderGallery();
      err := RenderNearbyAndMap(dist);
    }

    /** The tail of toku-trip's `renderPage`: the nearby cards, then the map unless the cards threw. */
    method RenderNearbyAndMap(dist: Distance) returns (err: Option<PageError>)
      requires current.Some?
      modifies this`nearbyShown, this`nearbyCards, this`mapShown, this`mapMarkers
      ensures err == Some(ScriptError) <==> NearbyFails()
      ensures err != Some(ScriptError) ==> err.None?
      ensures err.None? ==> NearbyRendered(NearbyCards(attractions, current.value, dist), old(nearbyShown), old(nearbyCards)) && MapRendered(dist, old(mapShown), old(mapMarkers))
      ensures err.Some? ==> nearbyShown == old(nearbyShown) && nearbyCards == old(nearbyCards)
      ensures err.Some? ==> mapShown == old(mapShown) && mapMarkers == old(mapMarkers)
    {
      err := RenderNearby(dist);
      if err.None? {
        RenderDetailMap(dist);
      }
    }

    /**
     * The gallery container is shown when the attraction has images and the
     * page has the container (toku-trip) or both gallery elements (js, src).
     */
    predicate GalleryShows(a: Attraction)
    {
      hasGalleryContainer && (copy == TokuTrip || hasImageGallery) && |a.galleryImages| > 0
    }

    /** The gallery state after a render: shown and filled when the attraction has images and the page the elements. */
    predicate GalleryRendered(a: Attraction, shown0: bool, items0: seq<string>, images0: seq<string>)
      reads this`galleryShown, this`galleryItems, this`galleryImages
    {
      var shows := GalleryShows(a);
      galleryShown == (shown0 || shows) &&
      if copy == TokuTrip then
        (hasImageGallery ==> galleryImages == GalleryUrls(a) && galleryItems == GalleryUrls(a)) &&
        (!hasImageGallery ==> galleryImages == images0 && galleryItems == items0)
      else
        galleryImages == images0 && galleryItems == (if shows then GalleryUrls(a) else items0)
    }

    /**
     * `renderGallery` (and toku-trip `renderPage`'s gallery display): toku-trip
     * resets the lightbox list and pushes one URL per image; js and src fill
     * the gallery only when there are images, and never clear it.
     */
    method RenderGallery()
      requires current.Some?
      modifies this`galleryShown, this`galleryItems, this`galleryImages
      ensures GalleryRendered(current.value, old(galleryShown), old(galleryItems), old(galleryImages))
    {
      var a := current.value;
      if GalleryShows(a) {
        galleryShown := true;
      }
      if copy == TokuTrip {
        if !hasImageGallery {
          return;
        }
        galleryImages := [];
        for k := 0 to |a.galleryImages|
          modifies this`galleryImages
          invariant galleryImages == GalleryUrls(a)[..k]
        {
          galleryImages := galleryImages + [GalleryUrl(a.folder, a.galleryImages[k])];
        }
        assert GalleryUrls(a)[..|a.galleryImages|] == GalleryUrls(a);
        galleryItems := galleryImages;
      } else if GalleryShows(a) {
        galleryItems := GalleryUrls(a);
      }
    }

    /** The panorama display after `renderPanorama` of js or src. */
    function PanoramaAfter(a: Attraction, shown0: Option<bool>): Option<bool>
    {
      var d := if copy == SiteRoot then SitePanorama(hasPanorama, panoramaLoaded, a.panoramaImage)
               else SrcPanorama(hasPanorama, panoramaLoaded, a.panoramaImage);
      if d.Some? then d else shown0
    }

    method RenderPanorama()
      requires current.Some? && copy != TokuTrip
      modifies this`panoramaShown
      ensures panoramaShown == PanoramaAfter(current.value, old(panoramaShown))
    {
      var d := if copy == SiteRoot then SitePanorama(hasPanorama, panoramaLoaded, current.value.panoramaImage)
               else SrcPanorama(hasPanorama, panoramaLoaded, current.value.panoramaImage);
      if d.Some? {
        panoramaShown := d;
      }
    }

    /** The nearby section after a render that did not throw: touched only when there is a card to show. */
    predicate NearbyRendered(r: Result<seq<Ranked>, RankError>, shown0: bool, cards0: seq<Ranked>)
      reads this`nearbyShown, this`nearbyCards
    {
      if hasNearby && r.Success? && r.value != [] then nearbyShown && nearbyCards == r.value
      else nearbyShown == shown0 && nearbyCards == cards0
    }

    /** `renderNearbyAttractions`. */
    method RenderNearby(dist: Distance) returns (err: Option<PageError>)
      requires current.Some?
      modifies this`nearbyShown, this`nearbyCards
      ensures err == Some(ScriptError) <==> NearbyFails()
      ensures err != Some(ScriptError) ==> err.None?
      ensures err.None? ==> NearbyRendered(NearbyCards(attractions, current.value, dist), old(nearbyShown), old(nearbyCards))
      ensures err.Some? ==> nearbyShown == old(nearbyShown) && nearbyCards == old(nearbyCards)
    {
      if !hasNearby {
        return None;
      }
      var r := NearbyCards(attractions, current.value, dist);
      if r.Failure? {
        return Some(ScriptError);
      }
      if |r.value| > 0 {
        nearbyShown := true;
        nearbyCards := r.value;
      }
      return None;
    }

    /** The detail map after `renderDetailMap`: hidden without usable coordinates, else the three nearest marked. */
    predicate MapRendered(dist: Distance, shown0: Option<bool>, markers0: seq<Attraction>)
      requires current.Some?
      reads this`current, this`attractions, this`mapShown, this`mapMarkers
    {
      var a := current.value;
      if !hasMap then mapShown == shown0 && mapMarkers == markers0
      else if a.coordinates.None? || a.coordinates.value.placeholder then mapShown == Some(false) && mapMarkers == markers0
      else mapShown == Some(true) && mapMarkers == MapNearby(attractions, a, a.coordinates.value, dist)
    }

    method RenderDetailMap(dist: Distance)
      requires current.Some?
      modifies this`mapShown, this`mapMarkers
      ensures MapRendered(dist, old(mapShown), old(mapMarkers))
    {
      var a := current.value;
      if !hasMap {
        return;
      }
      if a.coordinates.None? || a.coordinates.value.placeholder {
        mapShown := Some(false);
        return;
      }
      mapShown := Some(true);
      mapMarkers := MapNearby(attractions, a, a.coordinates.value, dist);
    }

    /** `openLightbox(index)`: does nothing without the modal or without images. */
    method OpenLightbox(index: nat)
      modifies this`lightboxIndex, this`lightboxOpen, this`lightboxImage, this`caption
      ensures !hasModal || galleryImages == [] ==>
        lightboxIndex == old(lightboxIndex) && lightboxOpen == old(lightboxOpen) &&
        lightboxImage == old(lightboxImage) && caption == old(caption)
      ensures hasModal && galleryImages != [] ==> lightboxIndex == Finite(index) && lightboxOpen && ViewerShows(old(lightboxImage), old(caption))
    {
      if !hasModal || |galleryImages| == 0 {
        return;
      }
      lightboxIndex := Finite(index);
      lightboxOpen := true;
      UpdateLightboxImage();
    }

    method CloseLightbox()
      modifies this`lightboxOpen
      ensures lightboxOpen == (old(lightboxOpen) && !hasModal)
    {
      if hasModal {
        lightboxOpen := false;
      }
    }

    /** The viewer shows the image at `lightboxIndex` and its caption, or is left alone without its elements. */
    predicate ViewerShows(image0: Option<string>, caption0: string)
      reads this`lightboxImage, this`caption, this`galleryImages, this`lightboxIndex
    {
      if hasViewer then lightboxImage == ImageAt(galleryImages, lightboxIndex) && caption == CaptionText(lightboxIndex, |galleryImages|)
      else lightboxImage == image0 && caption == caption0
    }

    method ShowNextImage()
      modifies this`lightboxIndex, this`lightboxImage, this`caption
      ensures lightboxIndex == NextIndex(old(lightboxIndex), |galleryImages|)
      ensures ViewerShows(old(lightboxImage), old(caption))
    {
      lightboxIndex := NextIndex(lightboxIndex, |galleryImages|);
      UpdateLightboxImage();
    }

    method ShowPrevImage()
      modifies this`lightboxIndex, this`lightboxImage, this`caption
      ensures lightboxIndex == PrevIndex(old(lightboxIndex), |galleryImages|)
      ensures ViewerShows(old(lightboxImage), old(caption))
    {
      lightboxIndex := PrevIndex(lightboxIndex, |galleryImages|);
      UpdateLightboxImage();
    }

    /** `updateLightboxImage`. */
    method UpdateLightboxImage()
      modifies this`lightboxImage, this`caption
      ensures ViewerShows(old(lightboxImage), old(caption))
    {
      if !hasViewer {
        return;
      }
      lightboxImage := ImageAt(galleryImages, lightboxIndex);
      caption := CaptionText(lightboxIndex, |galleryImages|);
    }
  }
}
