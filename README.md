# Random location picker: the submit handler

A Dafny model of the random-location page's submit handler (`handleSubmit` in
`src/App.jsx`) and of the effect that clears the user's position when the
radius is not positive.

One submission goes like this:
- The city typed in is trimmed; a blank city shows "Please enter a city name."
  and does nothing else.
- The trimmed city, lower-cased, is the key of a per-session cache of element
  lists. On a miss the geographic data source is asked for the city's elements
  and the answer is stored under the key; a failed request shows `Error: ...`.
- With a known position, a loop keeps the elements strictly inside the radius;
  without one every element is a candidate.
- One candidate is drawn at random and described: name, coordinates, the type
  tag chosen by a fixed priority list, the distance when a position is known,
  and a map link.

The model is split into four modules:
- `Overpass` (`overpass.dfy`): the records of the data source's JSON answer.
- `Text` (`text.dfy`): JavaScript's `trim`, `toLowerCase` and
  `replaceAll("_", " ")` on strings of code points, with their laws.
- `RandomLocation` (`random_location.dfy`): specification functions for each
  step and for a whole submission (`Handle`), the methods that follow the
  handler's loops, and the class `Picker` that holds the page's state.
- `RandomLocationFacts` (`random_location_facts.dfy`): what a submission
  guarantees, stated over those specification functions.

Each method is proved equal to the function that specifies it. These are
`ResolveType`, `ComposeResult`, `ShowLocation`, `PickLocation`, `Lookup`,
`Search` and `Submit`. The lemmas then state the handler's promises about
those functions.

The handler's `lat` and `lon` variables are modelled as they behave in
JavaScript:
- they start as `null`;
- a missing JSON field reads as `undefined`;
- in arithmetic `null` counts as 0 and `undefined` as NaN;
- a comparison with NaN is false.

The variables are declared once and overwritten only for an element that is a
node or has a `center`. So an element without coordinates is measured, and
shown, at the coordinates the previous step left. The model keeps this
carry-over as written.

The outside world is turned into parameters:
- what the network answers (`Fetch`);
- the user's position (`Option<Position>`);
- the value of `Math.random()` (a real `r`);
- a `Host` holding the haversine distance, `toFixed(6)`, `toFixed(2)` and the
  text of a number in a template string.

## Model

| member | source | states |
|---|---|---|
| Text.TrimShape | src/App.jsx:49-50 | `trim` never lengthens its input and leaves no white space at either end; it returns the empty string exactly when the city is all white space |
| Text.TrimIgnoresPadding | src/App.jsx:49 | white space added before and after a string does not change what `trim` returns |
| Text.UnderscoresReplaced | src/App.jsx:166 | `replaceAll("_", " ")` keeps the length, turns every underscore into a space, keeps every other code point and leaves no underscore |
| Text.LowerPointwise | src/App.jsx:55 | the model's lower-casing keeps the length and maps each code point on its own |
| Text.LowerIdempotent | src/App.jsx:55 | lower-casing a lower-cased string changes nothing |
| Text.LowerTrim | src/App.jsx:49-55 | lower-casing then trimming equals trimming then lower-casing |
| RandomLocation.FirstTagIndex | src/App.jsx:155-161 | the index is that of a key with a non-empty tag and every earlier key's tag is empty, or it is the list's length when no key has a tag |
| RandomLocation.FirstTagIndexAt | src/App.jsx:156-159 | a key with a non-empty tag after a run of keys with empty tags is the one the loop stops at |
| RandomLocation.CacheKeyNormal | src/App.jsx:55 | a cache key is its own cache key, and it is empty exactly for a blank city |
| RandomLocation.ResolveType | src/App.jsx:155-161 | the `tagPriority` loop with `break` returns the value of the first key with a non-empty tag, or "" |
| RandomLocation.ComposeResult | src/App.jsx:163-175 | the `result +=` steps produce the specified text: name and coordinates, a type line only for a non-empty type, a distance line only with a position, then the map link |
| RandomLocation.ShowLocation | src/App.jsx:120-175 | the display step re-resolves the coordinates, throws where the source throws, and otherwise returns the specified description |
| RandomLocation.PickLocation | src/App.jsx:87-118 | the radius loop keeps exactly the elements the pool specification keeps, with the cursor carried over. The method then picks the element at the drawn index, or reports no results |
| RandomLocation.Picker.constructor | src/App.jsx:5-10 | the page starts with radius 0, no position, the initial text, not loading, an empty cache |
| RandomLocation.Picker.RadiusChanged | src/App.jsx:28-44 | a radius of zero or less clears the position; a positive one leaves it to the geolocation callback |
| RandomLocation.Picker.PositionArrived | src/App.jsx:35-37 | the geolocation callback stores the reported position |
| RandomLocation.Picker.Lookup | src/App.jsx:61-85 | a hit returns the cached list; a miss stores the read list, or [], under the key; a failed request stores nothing; given a normalised key, every cache key stays normalised |
| RandomLocation.Picker.Search | src/App.jsx:60-179 | the try block leaves the specified cache and shows the specified text, keeping every cache key normalised |
| RandomLocation.Picker.Submit | src/App.jsx:46-183 | the cache and the text shown are those of the specification `Handle`. A blank city leaves `loading` alone. Otherwise `loading` is set true and then false again on every exit path |
| RandomLocationFacts.BlankInput | src/App.jsx:49-53 | the blank-city message is shown exactly for a city of white space only, and then the cache is unchanged and the fetch plays no part |
| RandomLocationFacts.SharedKey | src/App.jsx:49-55 | cities differing only in letter case and surrounding white space share one cache key |
| RandomLocationFacts.ParisKey | src/App.jsx:49-55 | " Paris " trims to "Paris" and has the key "paris" |
| RandomLocationFacts.CacheHit | src/App.jsx:61-63 | on a cache hit the cache is unchanged and the fetch outcome plays no part |
| RandomLocationFacts.CacheMiss | src/App.jsx:63-85 | on a miss a read answer is stored under the key, a missing `elements` as []; a non-ok status or an exception stores nothing and shows `Error: <message>` |
| RandomLocationFacts.CacheOnlyGrows | src/App.jsx:84 | no entry is ever removed or changed; the only key a submission may add is the city's own |
| RandomLocationFacts.RepeatIsCached | src/App.jsx:55-84 | after a successful fetch, the same city typed again in other case or with other padding is found in the cache |
| RandomLocationFacts.EmptyListMessage | src/App.jsx:87-90 | an empty list, cached or fetched, shows "No locations found in city" with the trimmed city in its original case |
| RandomLocationFacts.NoCandidateMessage | src/App.jsx:110-118 | an empty candidate pool shows the same no-results text |
| RandomLocationFacts.InRadiusSubsequence | src/App.jsx:96-109 | the pool is the list's elements at increasing positions, namely exactly the positions whose element is strictly inside the radius at the cursor its own step leaves |
| RandomLocationFacts.InRadiusKeptOnly | src/App.jsx:98-108 | every element of the pool sits at a position whose measured distance is strictly less than the radius |
| RandomLocationFacts.InRadiusKeepsEvery | src/App.jsx:98-108 | the element at every position whose measured distance is strictly less than the radius is in the pool |
| RandomLocationFacts.InRadiusMembership | src/App.jsx:98-108 | an element is in the pool exactly when it sits at a position whose measured distance is strictly less than the radius |
| RandomLocationFacts.PoolMembership | src/App.jsx:97-113 | without a position the pool is the whole list; with one it is the radius loop's result |
| RandomLocationFacts.BoundaryExcluded | src/App.jsx:106 | an element exactly at the radius, or at a NaN distance, is not kept |
| RandomLocationFacts.NonPositiveRadiusEmptiesPool | src/App.jsx:106 | with non-negative distances, a radius of zero or less keeps nothing |
| RandomLocationFacts.CursorAfterUnlocated | src/App.jsx:93-105 | until an element with coordinates of its own comes along, the loop measures at the initial nulls |
| RandomLocationFacts.CursorAfterLastLocated | src/App.jsx:98-105 | after the loop the cursor holds the last element with coordinates of its own, whatever elements follow it |
| RandomLocationFacts.DrawInRange | src/App.jsx:110 | `Math.floor(r * n)` with `r` in [0, 1) is an index of a list of length n |
| RandomLocationFacts.DrawReaches | src/App.jsx:110-112 | every index is drawn, and index k is drawn exactly when `r` lies in [k/n, (k+1)/n), an interval of length 1/n, so a uniform `Math.random()` makes every index equally likely |
| RandomLocationFacts.PickFromPool | src/App.jsx:110-113 | with a non-empty pool the pick is the pool's element at the drawn index, so it is a member of the pool |
| RandomLocationFacts.EmptyPoolNoResults | src/App.jsx:110-117 | an empty pool leads to the no-results reply |
| RandomLocationFacts.TypeIsFirstTag | src/App.jsx:137-161 | the type is the value of the first key of the priority list whose tag is non-empty; it is empty exactly when every key's tag is |
| RandomLocationFacts.AmenityBeforeTourism | src/App.jsx:137-161 | with both an `amenity` and a `tourism` tag, the amenity is the type |
| RandomLocationFacts.NameShown | src/App.jsx:120-121 | the name is the non-empty `name` tag, else "Unnamed"; it is never empty |
| RandomLocationFacts.ShownCoordinates | src/App.jsx:122-128 | the coordinates shown are the element's own. For an element without any, they are those of the last located element of the list when a position is known, and the initial nulls when it is not |
| RandomLocationFacts.NotAvailableWithoutPosition | src/App.jsx:132-135 | without a position, an element without coordinates of its own shows "Not available" |
| RandomLocationFacts.MissingTagsThrow | src/App.jsx:157-179 | a picked element without tags and with printable coordinates ends in `Error: Cannot read properties of undefined (reading 'type')` |
| RandomLocationFacts.MissingLatitudeThrows | src/App.jsx:132-134 | a node without `lat` throws on `toFixed` |
| RandomLocationFacts.SightTags | src/App.jsx:120-161 | a node tagged only with a non-empty `name` and a non-empty `tourism` value is shown under that name, and its type is the `tourism` value, since no earlier key of the priority list is among its tags |
| RandomLocationFacts.SightDescribed | src/App.jsx:120-175 | without a position such a node is described with its own name, its own coordinates to six decimals, and its `tourism` value as the type |
| RandomLocationFacts.TypeLineVerbatim | src/App.jsx:164-166 | a type with no underscore appears unchanged after "Type: " |
| RandomLocationFacts.SightShown | src/App.jsx:120-175 | the full text for such a node: the name and coordinates line, "Type: " and the `tourism` value, then the map link at its own coordinates, with no distance line |
| RandomLocationFacts.EiffelTowerShown | src/App.jsx:120-175 | a node named "Eiffel Tower" and tagged `tourism=attraction` shows "Name: Eiffel Tower", its coordinates, "Type: attraction" and a map link whose `pt` gives the longitude, then the latitude |

## Left out

- The query text, `fetch`, `response.ok` and `response.json()` are network I/O. What they come to is the input `Fetch`: a thrown exception with its message, a non-ok status, or the decoded JSON.
- The geolocation request and its asynchronous callback are left out. `RadiusChanged` and `PositionArrived` are separate steps, so a callback that arrives after the radius was cleared can still set a position. An error callback does nothing and is not modelled.
- The haversine distance, `deg2rad`, `toFixed` and number-to-text conversion are floating point. They are opaque functions held in `Host`.
- `Math.random()` is the parameter `r`.
- React state setters, rendering, `dangerouslySetInnerHTML`, `console.log` and the form's input handling are presentation.
- Two submissions running at once are not modelled. Each `Submit` runs to completion.
- RandomLocation.Picker.Submit: states only the final text, not the intermediate "Loading data... Please wait." that stays on screen while the request runs.
- RandomLocation.Picker.RadiusChanged: the radius is a real number. The source's radius is the input field's string, converted by `Number(...)` and by `-`; a non-numeric radius (NaN) is not modelled.
- Text.LowerChar: lower-cases only the capitals of Basic Latin, Latin-1 and Cyrillic. The rest of Unicode case mapping is left out.
- The cache is a map from strings to lists. The source's cache is a plain JavaScript object, so keys such as "constructor" inherited from `Object.prototype` would read as present; this is not modelled.
- The TypeError messages use the V8 engine's wording. Other engines word them differently.
- A JSON value of a type other than the one the model gives it is not modelled. Examples are a non-numeric `lat` or a non-string tag.
