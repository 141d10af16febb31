# Tuku GO page logic in Dafny

Tuku GO is a static tourism site. This project models the small pieces of logic its page scripts share, and proves what they promise:

- **The `I18n` helper** (js/i18n.js and toku-trip/src/js/i18n.js).
  - Choosing the page language from the stored preference and the browser's languages.
  - Loading a locale file, with one fallback to `zh-TW`.
  - `t(key, replacements)`, which replaces only the first occurrence of each placeholder.
  - `setLanguage`, and rewriting the text of every `data-i18n` element.
- **The attraction detail page**, in its three copies (toku-trip/src/js, js and src/js detail.js).
  - Looking up the attraction named by the `id` URL parameter, and the error panel.
  - The gallery, its lightbox index arithmetic and its caption.
  - The panorama container.
  - The nearby cards: filter, measure, stable sort by distance, take three.
  - The detail map's nearby markers.
- **The homepage map.**
  - toku-trip/src/js/script.js: the `markers` table keyed by attraction id, the per-category layers, the filter buttons and the `'All'`/single-category filter.
  - src/js/script.js: the earlier `updateMapPopups` rebuild and the `initMap` re-entry rule.

How the model abstracts the page:

- **Browser inputs become parameters.** `fetch`, `localStorage`, `navigator.language(s)` and `URLSearchParams` are turned into method parameters or fields. A locale file loads exactly when its language is a key of a `locales` map. The attractions database is an `Option`.
- **The distance is a parameter.** It is an uninterpreted deterministic function `(Coordinates, Coordinates) -> real`.
- **The libraries become sets.** Leaflet layers and the marker cluster group are sets of marker names. A marker is named by its attraction's position in the list. What the older homepage map shows is a multiset, because each rebuild creates new Leaflet markers.
- **Only the DOM state the scripts set is kept.** That is shown/hidden flags, element texts, the gallery URL list, the lightbox index and caption, and the filter buttons. The `data-i18n` elements live in an array that `TranslatePage` rewrites in place.

JavaScript details are written out:

- Truthiness: a latitude of `0` gets no marker, and an empty `id` counts as missing.
- `%` is truncating, and `% 0` gives `NaN`. This is why the lightbox index is a `JsNumber`.
- `String.prototype.replace` with a string pattern replaces the first occurrence only.
- `split('-')[0]`.
- `Object.keys` follows insertion order.
- `Array.prototype.sort` is stable.

Modules: `Wrappers` (Option, Result), `Text` (substring search, first-occurrence replace, decimal text), `I18n`, `Catalog` (attraction records, lookup by id, marker style tables), `Ranking` (stable insertion sort and the nearby selection), `Detail`, `HomeMap` and `MapPopups`.

## Model

| member | source | states |
|---|---|---|
| Text.IndexFrom | toku-trip/src/js/i18n.js:78 | The result is the first position at or after `from` where the pattern occurs. It is `None` only when the pattern occurs nowhere from there. |
| Text.IndexOf | toku-trip/src/js/i18n.js:78 | The result is the first occurrence of the pattern. It is `None` exactly when the pattern occurs nowhere. |
| Text.ReplaceFirst | toku-trip/src/js/i18n.js:78 | `replace` with a string pattern: the text is unchanged when the pattern is absent. Otherwise the first occurrence, and only it, is replaced by the value. |
| Text.ReplaceFirstKeepsOccurrence | js/i18n.js:74-76 | Any text before the replaced slot stays where it was. Any text after it, a second copy of the same placeholder included, survives, shifted by the length difference. |
| Text.ReplaceFirstIsSplice | js/i18n.js:75 | At the first occurrence, `replace` is a splice of the value over the placeholder's span. |
| Text.SplitFirst | toku-trip/src/js/i18n.js:44 | `split('-')[0]` is the longest prefix without the separator. It ends at the first separator or at the end of the string. |
| Text.NatToString | toku-trip/src/js/detail.js:302 | A number prints as a non-empty digit string with no leading zero unless the number is 0. |
| Text.ParseNatToString | toku-trip/src/js/detail.js:302 | Reading the printed digits back gives the number again. |
| I18n.EntryMatch | toku-trip/src/js/i18n.js:40-47 | One `navigator.languages` entry yields only a supported language: the entry itself, else its base language. |
| I18n.ListMatch | toku-trip/src/js/i18n.js:39-48 | The list loop yields only supported languages. |
| I18n.ResolveLanguage | toku-trip/src/js/i18n.js:27-51 | `getLanguage` always returns a supported language. A supported stored preference wins over everything the browser says. |
| I18n.ListMatchIsFirstMatch | toku-trip/src/js/i18n.js:39-48 | The first entry that matches decides, so earlier entries win over later ones. Within that entry an exact match comes before its base language. |
| I18n.ListMatchNone | js/i18n.js:36-45 | The loop finds nothing exactly when no entry matches, either exactly or by its base language. |
| I18n.ResolveIgnoresUnsupportedStored | toku-trip/src/js/i18n.js:28-36 | An unsupported stored value is ignored, and a supported `navigator.language` then wins. |
| I18n.ResolveFromLanguageList | js/i18n.js:25-45 | Without a usable stored value or browser language, the first matching list entry gives its exact tag or its base. |
| I18n.ResolveDefault | js/i18n.js:24-48 | When nothing offered is supported, the result is the default `zh-TW`. |
| I18n.GetLanguage | js/i18n.js:24-48 | The search loop with early returns computes exactly `ResolveLanguage`. Its result is therefore always supported. |
| I18n.Translation | toku-trip/src/js/i18n.js:69-82 | A key missing from the dictionary comes back verbatim. With no replacements, the stored entry is returned as it is. |
| I18n.SubstituteWithoutPlaceholders | toku-trip/src/js/i18n.js:77-79 | Replacements whose placeholders do not occur leave the entry unchanged. |
| I18n.TranslationReplacesFirstOnly | toku-trip/src/js/i18n.js:77-79 | `t(key, {name: v})` puts `v` in place of the first `{name}` only. Every other token, a second `{name}` included, stays literal. |
| I18n.LoadAttempts | toku-trip/src/js/i18n.js:53-67 | `loadTranslations` fetches at most twice: the requested file first. It fetches the default second exactly when the first fails and was not the default. |
| I18n.LoadedDictionary | js/i18n.js:50-64 | The dictionary becomes the first file that loads. When neither loads, it keeps its previous value. |
| I18n.Coerce | toku-trip/src/js/i18n.js:85-87 | `setLanguage` keeps a supported code and turns any other into `zh-TW`. |
| I18n.LangLabelKey | js/i18n.js:109 | The label key is `lang_` followed by the tag with only its first `-` turned into `_`. |
| I18n.SupportedLabelKeys | toku-trip/src/js/i18n.js:110 | The four labels are `lang_zh_TW`, `lang_en`, `lang_ja` and `lang_ko`. |
| I18n.Page.constructor | toku-trip/src/js/i18n.js:94-104 | The page holds the marked elements, the `<html>` language and the optional language label. |
| I18n.Translated | toku-trip/src/js/i18n.js:94-100 | Translating keeps one element per element. |
| I18n.TranslatedAt | toku-trip/src/js/i18n.js:95-99 | Each element keeps its key and shows `t(key)`. |
| I18n.TranslatedIdempotent | toku-trip/src/js/i18n.js:94-100 | A second translation with the same dictionary changes nothing. |
| I18n.Translator.constructor | toku-trip/src/js/i18n.js:12-16 | The helper starts with no language and an empty dictionary. |
| I18n.Translator.Translate | js/i18n.js:66-79 | The loop over the replacements computes exactly `Translation`. |
| I18n.Translator.LoadTranslations | toku-trip/src/js/i18n.js:53-67 | The fetches made are `LoadAttempts`. The dictionary changes only on a successful load, to `LoadedDictionary`. |
| I18n.Translator.SetLanguage | js/i18n.js:81-91 | `currentLang` and the persisted `tuku_go_lang` both become `Coerce(lang)`. The persist comes before the load. In the site-root copy, `language-changed` is dispatched only after the load has finished. |
| I18n.Translator.Init | toku-trip/src/js/i18n.js:18-25 | `init` picks `getLanguage`'s result and loads it. The selector label, when present, shows the translated label key. |
| I18n.Translator.TranslatePage | toku-trip/src/js/i18n.js:94-112 | Every marked element shows `t(its key)`, and `<html lang>` becomes the part before the first `-`. The label is refreshed in the toku-trip copy only. |
| Catalog.FindIndex | toku-trip/src/js/detail.js:141 | `find` by id returns the first attraction with that id. It is `None` exactly when no attraction has it. |
| Catalog.CategoryIcon | toku-trip/src/js/script.js:86-104 | The seven known categories get their fixed icon and colour. The result is the default `fa-map-marker-alt`/`#708090` exactly for the other categories. |
| Catalog.CategoryColor | src/js/script.js:44-55 | The result is `#708090` exactly for categories outside the seven-entry table. |
| Catalog.ColorTablesAgree | src/js/script.js:45-54 | The older colour table and the newer icon table know the same categories and give them the same colour. |
| Catalog.MarkerEmphasis | toku-trip/src/js/detail.js:66-67 | The current attraction's marker, and only it, gets `scale(1.2)` and z-index 1000. Every other marker gets `scale(1)` and z-index 900. |
| Ranking.Insert | toku-trip/src/js/detail.js:353 | One insertion step adds exactly the inserted element. |
| Ranking.InsertSorted | toku-trip/src/js/detail.js:353 | Inserting into a sorted list keeps it sorted. |
| Ranking.SortBy | toku-trip/src/js/detail.js:353 | The sort returns a permutation of its input, ascending by the key. |
| Ranking.InsertStable | toku-trip/src/js/detail.js:353 | Insertion puts the new element ahead of all elements with an equal key. |
| Ranking.SortByStable | toku-trip/src/js/detail.js:353 | The sort is stable: the elements with any one key keep their input order. |
| Ranking.WithKeyOfPrefix | toku-trip/src/js/detail.js:355 | Taking a prefix keeps the tied elements in the order of the full list. |
| Ranking.Project | toku-trip/src/js/detail.js:349-352 | `map` produces one image per element, in place. |
| Ranking.InsertProject | toku-trip/src/js/detail.js:229-232 | Inserting and then projecting equals projecting and then inserting, when the keys agree. |
| Ranking.SortByProject | toku-trip/src/js/detail.js:229-232 | Sorting and then projecting equals projecting and then sorting by the agreeing key. |
| Ranking.Take | toku-trip/src/js/detail.js:355 | `slice(0, n)` is a prefix of length min(n, length). |
| Ranking.ProjectTake | toku-trip/src/js/detail.js:232 | Slicing commutes with projecting. |
| Ranking.Candidates | toku-trip/src/js/detail.js:347-348 | An attraction stays exactly when it is not the current id and has coordinates not marked `placeholder`. |
| Ranking.CandidatesAppend | toku-trip/src/js/detail.js:347-348 | `filter` keeps the file order: filtering a concatenation gives the filtered first part followed by the filtered second part. |
| Ranking.WithDistances | toku-trip/src/js/detail.js:349-352 | Each candidate is paired, in place, with its distance from the current attraction. |
| Ranking.NearbyCards | toku-trip/src/js/detail.js:347-355 | The selection fails exactly when the current attraction has no coordinates and some candidate has to be measured. Otherwise it holds min(3, #candidates) cards. Each card is a candidate from the list, and the cards ascend by distance. |
| Ranking.SortedPrefixIsSmallest | toku-trip/src/js/detail.js:353-355 | In a sorted list, nothing left out of a prefix is smaller than the prefix's elements. |
| Ranking.MeasuredFromOrigin | toku-trip/src/js/detail.js:349-352 | Every measured entry is a candidate carrying its own distance from the origin. |
| Ranking.TakeSortedIsSmallest | toku-trip/src/js/detail.js:353-355 | A prefix of the sorted list is a sub-multiset of the input, and everything left out is at least as far. |
| Ranking.NearbyCardsAreNearest | js/detail.js:167-175 | No candidate left out of the cards is nearer than any card. |
| Ranking.NearbyCardsShowOwnDistance | js/detail.js:169-172 | Each card's distance is the distance of its own attraction from the current one. |
| Ranking.NearbyTiesKeepFileOrder | src/js/detail.js:151-159 | Cards at equal distance keep the order they have in attractions.json. |
| Ranking.MapNearby | toku-trip/src/js/detail.js:229-232 | The detail map marks at most three attractions, each a candidate from the list. |
| Ranking.MapMarksTheNearbyCards | toku-trip/src/js/detail.js:229-232 | The map's nearby markers are exactly the nearby cards' attractions, in the same order. |
| Ranking.WithDistancesCarryKey | toku-trip/src/js/detail.js:231 | The distance stored beside each candidate equals what the map's comparator measures, and dropping the distances gives back the candidates. |
| Detail.ErrorMessage | toku-trip/src/js/detail.js:39-42 | The error panel shows the translated key, which is the key itself when the dictionary lacks it, or src's literal. Only a thrown script error has no modelled text. |
| Detail.ErrorMessagesDiffer | src/js/detail.js:27-52 | Missing id, failed load and unknown id show three different messages in src, and as untranslated keys in the other copies. |
| Detail.JsRem | toku-trip/src/js/detail.js:286 | JavaScript `%` is a number exactly when the divisor is non-zero, and lies in range for a non-negative dividend. |
| Detail.NextPrevInRange | toku-trip/src/js/detail.js:285-293 | With n > 0 images, next and previous keep the index in [0, n). Next then previous restores the index, and so does previous then next. |
| Detail.EmptyGalleryIndexIsNaN | toku-trip/src/js/detail.js:286-291 | With no images, next and previous make the index `NaN`. |
| Detail.ImageAt | toku-trip/src/js/detail.js:300 | The viewer has an image exactly when the index is a number within the list. |
| Detail.CaptionRoundTrip | toku-trip/src/js/detail.js:302 | The caption reads `index+1 / n`: parsing it gives back index+1 and n. |
| Detail.GalleryUrlInjective | toku-trip/src/js/detail.js:254 | Distinct image names give distinct URLs. |
| Detail.GalleryUrls | toku-trip/src/js/detail.js:253-255 | There is exactly one URL per `gallery_images` entry, in order. |
| Detail.SitePanorama | js/detail.js:121-147 | With the container and the library, the panorama is shown exactly when `panorama_image` is present, and hidden otherwise. Without either, it is left alone. |
| Detail.SrcPanorama | src/js/detail.js:114-132 | src only ever shows the panorama, and does so exactly when the container, the library and `panorama_image` are all present. |
| Detail.DetailPage.constructor | toku-trip/src/js/detail.js:16-23 | The page starts with no data, an empty gallery and a closed lightbox at index 0. |
| Detail.DetailPage.LoadAttractionData | toku-trip/src/js/detail.js:134-150 | A failed load keeps the old state and reports the database error. Otherwise the list is kept and the current attraction is the first with the id. An unknown id reports not-found. |
| Detail.DetailPage.Init | js/detail.js:24-45 | A missing or empty `id` shows the missing-id error before any load. Load errors come next. None of those three errors renders anything. Otherwise the page is rendered as `PageRendered` says, and the render ends on the error panel exactly when the nearby selection throws. |
| Detail.DetailPage.RenderPage | js/detail.js:65-97 | toku-trip and js return early without an attraction and change nothing. Otherwise toku-trip renders gallery, nearby and map, while js and src render gallery, panorama and nearby. A throw from the nearby cards leaves the nearby section and the map as they were. |
| Detail.DetailPage.RenderTokuTripPage | toku-trip/src/js/detail.js:189-198 | The gallery, then the nearby cards, then the map. When the cards throw, the nearby section and the map are left as they were. |
| Detail.DetailPage.RenderNearbyAndMap | toku-trip/src/js/detail.js:197-198 | The nearby cards are rendered, then the map. The map is skipped, and both sections are left as they were, exactly when the nearby selection throws. |
| Detail.DetailPage.RenderGallery | js/detail.js:99-119 | js and src show the gallery and fill it with one URL per image only when both elements exist and there are images, and never clear it. toku-trip resets the lightbox list and rebuilds it with one URL per image, so a re-render gives the same list. |
| Detail.DetailPage.RenderPanorama | js/detail.js:121-147 | The display follows `SitePanorama` or `SrcPanorama`. |
| Detail.DetailPage.RenderNearby | js/detail.js:160-201 | The section is touched only when at least one card is selected, and then shows exactly the selected cards. It throws exactly when the selection fails. |
| Detail.DetailPage.RenderDetailMap | toku-trip/src/js/detail.js:201-240 | The map is hidden without usable coordinates. Otherwise it is shown with the three nearest attractions marked. |
| Detail.DetailPage.OpenLightbox | toku-trip/src/js/detail.js:269-276 | This is a no-op without the modal or without images. Otherwise it opens at the index and shows that image. |
| Detail.DetailPage.CloseLightbox | toku-trip/src/js/detail.js:278-283 | The lightbox closes when the modal exists. |
| Detail.DetailPage.ShowNextImage | toku-trip/src/js/detail.js:285-288 | The index becomes `(i + 1) % n`, and the viewer shows that image and caption. |
| Detail.DetailPage.ShowPrevImage | toku-trip/src/js/detail.js:290-293 | The index becomes `(i - 1 + n) % n`, and the viewer shows that image and caption. |
| Detail.DetailPage.UpdateLightboxImage | toku-trip/src/js/detail.js:295-303 | The viewer shows the image at the index and the caption `index+1 / n`. It is left alone when its elements are missing. |
| HomeMap.MarkerTable | toku-trip/src/js/script.js:169-177 | Every table entry points at an attraction with that id and a truthy latitude. |
| HomeMap.MarkerTableHoldsLastMarked | toku-trip/src/js/script.js:169-177 | The table holds exactly the ids of attractions with a truthy latitude, and each entry is the last such attraction, so a later duplicate overwrites. |
| HomeMap.LayerContentsStep | toku-trip/src/js/script.js:177 | Each marker goes into the layer of its own category and no other. |
| HomeMap.LayerKeys | toku-trip/src/js/script.js:164-167 | Existing layer keys persist, and new categories are appended. |
| HomeMap.LayerKeysCover | toku-trip/src/js/script.js:164-167 | Every attraction's category gets a layer even without a marker. No key is invented, and no key appears twice. |
| HomeMap.UnionOf | toku-trip/src/js/script.js:213-215 | Adding every named layer shows exactly the union of their markers. |
| HomeMap.Shown | toku-trip/src/js/script.js:211-221 | `'All'` shows every layer, a known key exactly that layer, and an unknown key nothing. |
| HomeMap.AllShowsEveryMarker | toku-trip/src/js/script.js:154-180 | After a rebuild, `'All'` shows exactly the attractions with a truthy latitude. |
| HomeMap.LayerKeysStable | toku-trip/src/js/script.js:164-167 | Rebuilding from the same attractions adds no layer key. |
| HomeMap.LayerKeysAlreadyPresent | toku-trip/src/js/script.js:165 | Categories that already have a layer add nothing. |
| HomeMap.App.constructor | toku-trip/src/js/script.js:14-22 | The app starts with no map, no markers and no layers. |
| HomeMap.App.LoadAttractions | toku-trip/src/js/script.js:119-133 | The list is replaced only by a successful load. |
| HomeMap.App.InitMap | toku-trip/src/js/script.js:135-152 | Without Leaflet nothing happens. Otherwise a new map with an empty cluster group replaces the old one. |
| HomeMap.App.CreateMarkers | toku-trip/src/js/script.js:154-180 | Without a map nothing changes. Otherwise the cluster group and every layer are emptied, and the table is exactly `MarkerTable`. The keys follow `LayerKeys`, and each layer holds exactly its category's markers. |
| HomeMap.App.AddAll | toku-trip/src/js/script.js:162-179 | The `forEach` builds the table, the keys and the layers for the whole list. |
| HomeMap.App.ClearLayers | toku-trip/src/js/script.js:158 | Every layer is emptied, and its key is kept. |
| HomeMap.App.AddAttraction | toku-trip/src/js/script.js:163-178 | One step extends the table, the keys and the layers by one attraction. |
| HomeMap.App.RenderMapFilters | toku-trip/src/js/script.js:182-207 | The buttons are `'All'` followed by the layer keys in insertion order, none of them active. |
| HomeMap.App.FilterMarkers | toku-trip/src/js/script.js:209-226 | The cluster group shows `Shown(filter)`. Exactly the buttons whose filter equals the key are active. |
| HomeMap.App.PanToMarker | toku-trip/src/js/script.js:106-117 | The map focuses the id's marker. Nothing happens for an id without one. |
| HomeMap.App.UpdateLanguage | toku-trip/src/js/script.js:58-64 | With a map, the table, layer keys and layers are rebuilt as `CreateMarkers` promises, and the map shows every attraction with a marker. Without one, they are left alone. With `#map-filters`, the buttons are `'All'` and then the layer keys. After the filter only the `'All'` buttons are active, and none are without a map. Without `#map-filters` there are no buttons. |
| MapPopups.Marked | src/js/script.js:119-134 | These are the markers one rebuild places. |
| MapPopups.MarkedMembers | src/js/script.js:120 | A rebuild places exactly one marker for each attraction with a truthy latitude. |
| MapPopups.TableReachesEveryMarker | src/js/script.js:114-133 | The table's values are exactly the placed markers if and only if no two marked attractions share an id. |
| MapPopups.TableReachesPrefix | src/js/script.js:119-134 | Under distinct ids, the table holds each placed marker once. |
| MapPopups.AsWrittenUpdate | src/js/script.js:114-134 | After an update as written, every freshly placed marker is on the map. |
| MapPopups.AsWrittenFromConsistent | src/js/script.js:114-134 | From a map that shows exactly the table's markers, one update shows exactly the marked attractions. |
| MapPopups.AsWrittenStaysConsistent | src/js/script.js:114-134 | That starting condition survives the update if and only if the marked ids are distinct. |
| MapPopups.DuplicateIdLeavesStaleMarker | src/js/script.js:114-133 | Two marked attractions with one id leave a stale marker after the second update. |
| MapPopups.HomePage.constructor | src/js/script.js:15-22 | The page starts with no map and no markers. |
| MapPopups.HomePage.PlaceMarkers | src/js/script.js:119-134 | The rebuild loop produces `MarkerTable` and adds one marker per marked attraction. |
| MapPopups.HomePage.RemoveTableMarkers | src/js/script.js:114-115 | Each marker the table reaches is taken off the map once. Nothing else is removed. |
| MapPopups.HomePage.UpdateMapPopupsAsWritten | src/js/script.js:110-136 | Without a map nothing happens. Otherwise only the markers the table reaches are removed, and the table is rebuilt. |
| MapPopups.HomePage.UpdateMapPopups | src/js/script.js:110-136 | Without a map nothing happens. Otherwise the map shows exactly one marker per marked attraction, and the table is `MarkerTable`. |
| MapPopups.HomePage.InitMap | src/js/script.js:91-108 | Without Leaflet nothing happens. A second call does not create a new map. It only rebuilds the markers with `updateMapPopups` as written, so the map shows `AsWrittenUpdate` of what it showed before. |
| MapPopups.HomePage.PanToMarker | src/js/script.js:57-66 | The map focuses the id's marker. Nothing happens for an id without one. |

## Left out

- `getDistance`: the haversine formula is floating-point trigonometry. The distance is a deterministic function given as a parameter, and `toFixed(2)` on the card text is not modelled.
- Browser inputs become method inputs:
  - `fetch` results, `localStorage`, `navigator.language(s)` and `URLSearchParams`.
  - Network rejections and malformed JSON are folded into "the load failed".
- Leaflet and Pannellum: only the marker and layer bookkeeping around them is modelled. Tiles, icons, popups, `flyTo` and the viewer are not.
- Marker popup and card texts, names per language, button labels, hero images, story and meta blocks are left out, because they are DOM templates.
- The order of fetches and events is modelled; async interleaving is not. In particular, overlapping `setLanguage` calls that are not awaited are left out.
- `replace`'s special `$` patterns in replacement values are not modelled. Replacement text is taken literally.
- Object-key corner cases are not modelled: inherited prototype keys such as `constructor`, and the ordering `Object.keys` gives to integer-like keys. Category keys are treated as plain strings.
- `renderStripImage`, `initLightbox`, `initLangSelector` event wiring, back-to-top, smooth scroll, mobile navigation, header effects and scroll animations are left out as UI glue.
- js/script.js, the about.js scripts and the koka_pano_init.js scripts are left out. They are DOM and library wiring with no stateable logic.
- Detail.DetailPage.RenderPage: the src copy never calls it without an attraction, because `init` stops first and src exposes no language hook. The model therefore requires an attraction for src instead of modelling the TypeError.
- Detail.DetailPage.RenderPage: the call to `translatePage` inside the `renderPage` of toku-trip and of js (js/detail.js:69) is not repeated here. It is modelled by `I18n.Translator.TranslatePage`.
- Detail.ErrorMessage: the text of a thrown TypeError comes from the JavaScript engine and is not modelled.
- HomeMap.App.UpdateLanguage: `renderAttractionCards` is left out, as are the marker popups' language.
- MapPopups: the popup content and the `updateLanguage`/`init` sequencing of src/js/script.js are left out.

## Findings

| source | as written | input that shows it | evidently intended | confidence | as-written member | corrected member |
|---|---|---|---|---|---|---|
| src/js/script.js:114-133 | `updateMapPopups` removes only the markers still reachable through `this.markers`. A second attraction with the same id overwrites the first one's entry, so the first marker is never removed. Every later update leaves one more stale marker on the map. | Two attractions with id `"x"` and non-zero latitudes. After two updates the map shows the first attraction's marker twice. | Every rebuild removes all markers the previous rebuild placed, so the map shows exactly one marker per attraction with a latitude. | not executed | MapPopups.HomePage.UpdateMapPopupsAsWritten, MapPopups.DuplicateIdLeavesStaleMarker | MapPopups.HomePage.UpdateMapPopups |
