/** The random-location page: its submit handler, which trims the city,
    looks it up in (or adds it to) a per-session cache, keeps the elements
    inside the radius around the user's position, draws one at random and
    describes it; and the rule that clears the position when the radius is
    not positive. The network, the geolocation service, the haversine
    distance, number formatting and the random source are supplied from
    outside: a Fetch value, Position values, a Host and a number in [0, 1). */
module RandomLocation {
  import opened Overpass
  import opened Text

  /** The user's position as the geolocation service reports it. */
  datatype Position = Position(lat: real, lon: real)

  /** Host functions the handler calls but the model does not compute:
      getDistanceFromLatLonInKm(lat1, lon1, lat2, lon2), Number's toFixed(6)
      and toFixed(2), and the text of a number placed in a template string. */
  datatype Host = Host(
    distanceKm: (real, real, real, real) -> real,
    fixed6: real -> string,
    fixed2: real -> string,
    numberText: real -> string)

  // ------------------------------------------------------------------ coordinates

  /** A value held by the handler's `lat` and `lon` variables: the initial
      null, the undefined read from a missing JSON field, or a number. */
  datatype Slot = Null | Undefined | Num(value: real)

  /** The pair of variables `lat`, `lon`, declared once per submission. */
  datatype Cursor = Cursor(lat: Slot, lon: Slot)

  const Start: Cursor := Cursor(Null, Null)

  function Read(field: Option<real>): Slot {
    match field
    case Some(v) => Num(v)
    case None => Undefined
  }

  /** A node carries `lat`/`lon`, an area carries a `center`; the handler
      overwrites `lat`/`lon` only for these. */
  predicate HasOwnCoordinates(e: Element) {
    e.kind == "node" || e.center.Some?
  }

  /** The coordinate step of the handler: a node's own `lat`/`lon`, else the
      `center`'s, else the variables keep what they held. */
  function Locate(c: Cursor, e: Element): Cursor {
    if e.kind == "node" then Cursor(Read(e.lat), Read(e.lon))
    else if e.center.Some? then Cursor(Read(e.center.value.lat), Read(e.center.value.lon))
    else c
  }

  /** JavaScript's numeric conversion of a slot: null is 0, undefined is NaN
      (None). */
  function ToNumber(s: Slot): Option<real> {
    match s
    case Null => Some(0.0)
    case Undefined => None
    case Num(v) => Some(v)
  }

  /** The distance from the user's position to the cursor, None being NaN. */
  function Distance(host: Host, from: Position, c: Cursor): Option<real> {
    match (ToNumber(c.lat), ToNumber(c.lon))
    case (Some(lat), Some(lon)) => Some(host.distanceKm(from.lat, from.lon, lat, lon))
    case _ => None
  }

  /** `radius - distance > 0`; a comparison with NaN is false. */
  predicate Within(radius: real, d: Option<real>) {
    d.Some? && radius - d.value > 0.0
  }

  // ------------------------------------------------------------ the candidate pool

  /** The cursor after the radius loop has visited every element of `es`. */
  function CursorAfter(es: seq<Element>): Cursor {
    if es == [] then Start else Locate(CursorAfter(es[..|es| - 1]), es[|es| - 1])
  }

  /** `locationsInRadius` after the radius loop has visited `es`: each
      element is measured at the cursor as it stands after its own step. */
  function InRadius(host: Host, from: Position, radius: real, es: seq<Element>): seq<Element> {
    if es == [] then []
    else
      var kept := InRadius(host, from, radius, es[..|es| - 1]);
      if Within(radius, Distance(host, from, CursorAfter(es))) then kept + [es[|es| - 1]] else kept
  }

  /** The list the random index is taken from. */
  function Candidates(host: Host, coords: Option<Position>, radius: real, es: seq<Element>): seq<Element> {
    if coords.Some? then InRadius(host, coords.value, radius, es) else es
  }

  /** What `lat`/`lon` hold when the selected element is described. */
  function LoopCursor(coords: Option<Position>, es: seq<Element>): Cursor {
    if coords.Some? then CursorAfter(es) else Start
  }

  /** `Math.floor(r * n)` for the random number `r`. */
  function Draw(r: real, n: nat): int {
    (r * n as real).Floor
  }

  datatype Chosen = Chosen(location: Element, cursor: Cursor)

  /** The selected element, or None where the index falls outside the pool
      (JavaScript reads `undefined` there). */
  function Selection(host: Host, coords: Option<Position>, radius: real, es: seq<Element>, r: real): Option<Chosen> {
    var pool := Candidates(host, coords, radius, es);
    var i := Draw(r, |pool|);
    if 0 <= i < |pool| then Some(Chosen(pool[i], LoopCursor(coords, es))) else None
  }

  // ---------------------------------------------------------------- the type tag

  /** The tag keys whose value is shown as the type, first match wins. */
  const Priority: seq<string> := [
    "type", "shop", "amenity", "highway", "craft", "office", "public_transport",
    "leisure", "attraction", "tourism", "historic", "place", "club",
    "disused:amenity", "building"]

  /** A tag's value, "" when absent; both are falsy in the source's test. */
  function TagValue(tags: map<string, string>, key: string): string {
    if key in tags then tags[key] else ""
  }

  /** The index of the first key with a non-empty value, |keys| if none. */
  function FirstTagIndex(tags: map<string, string>, keys: seq<string>): (k: nat)
    ensures k <= |keys|
    ensures k < |keys| ==> TagValue(tags, keys[k]) != ""
    ensures forall j :: 0 <= j < k ==> TagValue(tags, keys[j]) == ""
  {
    if keys == [] then 0
    else if TagValue(tags, keys[0]) != "" then 0
    else 1 + FirstTagIndex(tags, keys[1..])
  }

  /** The first key with a non-empty value is the one after a run of keys
      with empty values. */
  lemma FirstTagIndexAt(tags: map<string, string>, keys: seq<string>, i: nat)
    requires i < |keys| && TagValue(tags, keys[i]) != ""
    requires forall j :: 0 <= j < i ==> TagValue(tags, keys[j]) == ""
    ensures FirstTagIndex(tags, keys) == i
  {
  }

  /** The type shown for an element with these tags, "" for none. */
  function TypeOf(tags: map<string, string>): string {
    var k := FirstTagIndex(tags, Priority);
    if k < |Priority| then TagValue(tags, Priority[k]) else ""
  }

  /** `tags.name || 'Unnamed'`. */
  function NameOf(tags: map<string, string>): string {
    if TagValue(tags, "name") != "" then tags["name"] else "Unnamed"
  }

  // ------------------------------------------------------------- the result text

  /** The message of the TypeError thrown when a property of undefined is
      read, in the V8 engine's wording. */
  function UndefinedRead(property: string): string {
    "Cannot read properties of undefined (reading '" + property + "')"
  }

  /** The coordinates line; None where `toFixed` is called on undefined. */
  function CoordinatesText(host: Host, c: Cursor): Option<string> {
    if c.lat.Null? || c.lon.Null? then Some("Not available")
    else if c.lat.Undefined? || c.lon.Undefined? then None
    else Some(host.fixed6(c.lat.value) + ", " + host.fixed6(c.lon.value))
  }

  /** A slot placed in a template string. */
  function NumberText(host: Host, s: Slot): string {
    match s
    case Null => "null"
    case Undefined => "undefined"
    case Num(v) => host.numberText(v)
  }

  /** `toFixed(2)` of the distance; NaN prints as "NaN". */
  function DistanceText(host: Host, d: Option<real>): string {
    if d.Some? then host.fixed2(d.value) else "NaN"
  }

  function MapUrl(host: Host, c: Cursor): string {
    "https://yandex.ru/maps/?pt=" + NumberText(host, c.lon) + "," + NumberText(host, c.lat) + "&z=12&l=map"
  }

  /** How the try block ends: with a text to show, with the no-results
      message, or by throwing an error with this message. */
  datatype Reply = Shown(text: string) | NoResults | Thrown(message: string)

  /** The description of the selected element, `carried` being what the
      handler's `lat`/`lon` hold when it gets there. */
  function Describe(host: Host, coords: Option<Position>, location: Element, carried: Cursor): Reply {
    var tags := if location.tags.Some? then location.tags.value else map[];
    var name := NameOf(tags);
    var c := Locate(carried, location);
    match CoordinatesText(host, c)
    case None => Thrown(UndefinedRead("toFixed"))
    case Some(coordsText) =>
      if location.tags.None? then Thrown(UndefinedRead("type"))
      else
        Shown(Report(host, coords, name, coordsText, TypeOf(location.tags.value), c))
  }

  /** The result text of a described element, line by line: the template of
      src/App.jsx:163-175, which ComposeResult builds step by step. */
  function Report(host: Host, coords: Option<Position>, name: string, coordsText: string, kind: string, c: Cursor): string {
    var head := HeadLines(name, coordsText);
    var typed := if kind != "" then head + TypeLine(kind) else head;
    var measured := if coords.Some? then typed + DistanceLine(host, Distance(host, coords.value, c)) else typed;
    measured + LinkLine(host, c)
  }

  function HeadLines(name: string, coordsText: string): string {
    "Name: " + name + "<br/>Coordinates: " + coordsText
  }

  function TypeLine(kind: string): string {
    "<br/>Type: " + UnderscoresToSpaces(kind)
  }

  function DistanceLine(host: Host, d: Option<real>): string {
    "<br/>Distance to: " + DistanceText(host, d) + " km"
  }

  function LinkLine(host: Host, c: Cursor): string {
    "<br/><a href=\"" + MapUrl(host, c) + "\" target=\"_blank\">Open in Yandex Maps</a>"
  }

  /** The try block from the element list on. */
  function Choose(host: Host, coords: Option<Position>, radius: real, es: seq<Element>, r: real): Reply {
    if |es| == 0 then NoResults
    else
      match Selection(host, coords, radius, es, r)
      case None => NoResults
      case Some(chosen) => Describe(host, coords, chosen.location, chosen.cursor)
  }

  // ----------------------------------------------------------- cache and messages

  /** The cache key of a city: trimmed, then lower-cased. */
  function CacheKey(city: string): string {
    Lower(Trim(city))
  }

  /** Where the element list came from. */
  datatype Source = Cached(elements: seq<Element>) | Fetched(elements: seq<Element>) | Failed(message: string)

  function Obtain(cache: map<string, seq<Element>>, key: string, fetch: Fetch): Source {
    if key in cache then Cached(cache[key])
    else
      match fetch
      case Rejected(m) => Failed(m)
      case NotOk => Failed("Network error")
      case Parsed(found) => Fetched(if found.Some? then found.value else [])
  }

  /** The cache after the lookup: a fetched list is stored under the key. */
  function Store(cache: map<string, seq<Element>>, key: string, source: Source): map<string, seq<Element>> {
    if source.Fetched? then cache[key := source.elements] else cache
  }

  const BlankMessage: string := "Please enter a city name."
  const LoadingMessage: string := "Loading data... Please wait."
  const InitialMessage: string := "Result will appear here..."

  function NotFoundMessage(city: string): string {
    "No locations found in city \"" + city + "\"."
  }

  function ErrorMessage(message: string): string {
    "Error: " + message
  }

  /** The text the handler shows for a reply, `trimmed` being the trimmed city. */
  function Message(reply: Reply, trimmed: string): string {
    match reply
    case Shown(text) => text
    case NoResults => NotFoundMessage(trimmed)
    case Thrown(m) => ErrorMessage(m)
  }

  /** The cache and the shown text after one submission. */
  datatype Outcome = Outcome(cache: map<string, seq<Element>>, message: string)

  /** The try block of a submission, `trimmed` being the trimmed city: the
      cache it leaves and the text it shows last. */
  function Attempt(host: Host, cache: map<string, seq<Element>>, radius: real, coords: Option<Position>,
                   trimmed: string, fetch: Fetch, r: real): Outcome
  {
    var key := Lower(trimmed);
    var source := Obtain(cache, key, fetch);
    Outcome(Store(cache, key, source),
            if source.Failed? then ErrorMessage(source.message)
            else Message(Choose(host, coords, radius, source.elements, r), trimmed))
  }

  /** One submission of `city`, from the cache, radius and position it finds
      to the cache it leaves and the text it shows last. */
  function Handle(host: Host, cache: map<string, seq<Element>>, radius: real, coords: Option<Position>,
                  city: string, fetch: Fetch, r: real): Outcome
  {
    var trimmed := Trim(city);
    if trimmed == [] then Outcome(cache, BlankMessage)
    else Attempt(host, cache, radius, coords, trimmed, fetch, r)
  }

  /** A cache key is its own key, and it is empty only for a blank city. */
  lemma CacheKeyNormal(city: string)
    ensures CacheKey(CacheKey(city)) == CacheKey(city)
    ensures CacheKey(city) == [] <==> AllSpace(city)
  {
    var trimmed := Trim(city);
    TrimShape(city);
    TrimOfClean(trimmed);
    LowerTrim(trimmed);
    LowerIdempotent(trimmed);
  }

  /** Describe by cases, for the display step to follow one at a time. */
  lemma DescribeCases(host: Host, coords: Option<Position>, location: Element, carried: Cursor)
    ensures CoordinatesText(host, Locate(carried, location)).None? ==>
      Describe(host, coords, location, carried) == Thrown(UndefinedRead("toFixed"))
    ensures CoordinatesText(host, Locate(carried, location)).Some? && location.tags.None? ==>
      Describe(host, coords, location, carried) == Thrown(UndefinedRead("type"))
    ensures CoordinatesText(host, Locate(carried, location)).Some? && location.tags.Some? ==>
      Describe(host, coords, location, carried) ==
        Shown(Report(host, coords, NameOf(location.tags.value), CoordinatesText(host, Locate(carried, location)).value,
                     TypeOf(location.tags.value), Locate(carried, location)))
  {
  }

  // ------------------------------------------------------------------- methods

  /** The `tagPriority` loop: the value of the first key with a non-empty
      tag, "" when there is none. */
  method ResolveType(tags: map<string, string>) returns (kind: string)
    ensures kind == TypeOf(tags)
  {
    kind := "";
    for i := 0 to |Priority|
      invariant kind == ""
      invariant forall j :: 0 <= j < i ==> TagValue(tags, Priority[j]) == ""
    {
      var key := Priority[i];
      if key in tags && tags[key] != "" {
        kind := tags[key];
        FirstTagIndexAt(tags, Priority, i);
        break;
      }
    }
  }

  /** The `result +=` steps: the name and coordinates lines, the type line
      when there is a type, the distance line when a position is known, and
      the map link. */
  method ComposeResult(host: Host, coords: Option<Position>, name: string, coordsText: string, kind: string,
                       c: Cursor) returns (text: string)
    ensures text == Report(host, coords, name, coordsText, kind, c)
  {
    text := HeadLines(name, coordsText);
    if kind != "" {
      text := text + TypeLine(kind);
    }
    if coords.Some? {
      text := text + DistanceLine(host, Distance(host, coords.value, c));
    }
    text := text + LinkLine(host, c);
  }

  /** The handler from the selected element to the result text. */
  method ShowLocation(host: Host, coords: Option<Position>, location: Element, carried: Cursor) returns (reply: Reply)
    ensures reply == Describe(host, coords, location, carried)
  {
    DescribeCases(host, coords, location, carried);
    var name := NameOf(if location.tags.Some? then location.tags.value else map[]);
    var c := Locate(carried, location);
    var coordsText := CoordinatesText(host, c);
    if coordsText.None? {
      return Thrown(UndefinedRead("toFixed"));
    }
    if location.tags.None? {
      return Thrown(UndefinedRead("type"));
    }
    var kind := ResolveType(location.tags.value);
    var text := ComposeResult(host, coords, name, coordsText.value, kind, c);
    reply := Shown(text);
  }

  /** The handler from the element list on: the radius loop, the random
      index, and the description of the element it picks. */
  method PickLocation(host: Host, coords: Option<Position>, radius: real, elements: seq<Element>, r: real)
    returns (reply: Reply)
    ensures reply == Choose(host, coords, radius, elements, r)
  {
    if |elements| == 0 {
      return NoResults;
    }
    var location: Option<Element> := None;
    var cursor := Start;
    if coords.Some? {
      var inRadius: seq<Element> := [];
      for i := 0 to |elements|
        invariant cursor == CursorAfter(elements[..i])
        invariant inRadius == InRadius(host, coords.value, radius, elements[..i])
      {
        cursor := Locate(cursor, elements[i]);
        assert elements[..i + 1][..i] == elements[..i];
        if Within(radius, Distance(host, coords.value, cursor)) {
          inRadius := inRadius + [elements[i]];
        }
      }
      assert elements[..|elements|] == elements;
      var index := Draw(r, |inRadius|);
      if 0 <= index < |inRadius| {
        location := Some(inRadius[index]);
      }
    } else {
      var index := Draw(r, |elements|);
      if 0 <= index < |elements| {
        location := Some(elements[index]);
      }
    }
    if location.None? {
      return NoResults;
    }
    reply := ShowLocation(host, coords, location.value, cursor);
  }

  /** The page's state: the radius field, the user's position, the shown
      text, the loading flag and the per-session cache of element lists. */
  class Picker {
    var radius: real
    var coords: Option<Position>
    var result: string
    var loading: bool
    var cache: map<string, seq<Element>>
    /** Every value the loading flag was set to, in order. */
    ghost var loadingLog: seq<bool>

    /** Every cache entry sits under a non-empty normalised key. */
    ghost predicate Valid()
      reads this
    {
      forall key :: key in cache ==> key != [] && CacheKey(key) == key
    }

    constructor ()
      ensures Valid()
      ensures radius == 0.0 && coords == None && result == InitialMessage && !loading
      ensures cache == map[] && loadingLog == []
    {
      radius := 0.0;
      coords := None;
      result := InitialMessage;
      loading := false;
      cache := map[];
      loadingLog := [];
    }

    /** A new radius: a positive one asks the geolocation service for the
        position (its answer arrives through PositionArrived, a failure is
        ignored); any other clears the position. */
    method RadiusChanged(r: real)
      modifies this`radius, this`coords
      ensures radius == r
      ensures r <= 0.0 ==> coords == None
      ensures r > 0.0 ==> coords == old(coords)
    {
      radius := r;
      if !(r > 0.0) {
        coords := None;
      }
    }

    /** The geolocation service's success callback. */
    method PositionArrived(p: Position)
      modifies this`coords
      ensures coords == Some(p)
    {
      coords := Some(p);
    }

    /** The start of the try block: the cached list under `key`, or on a
        miss the list `fetch` brings, stored under `key`; a failed fetch
        throws and stores nothing. */
    method Lookup(key: string, fetch: Fetch) returns (source: Source)
      requires Valid() && key != [] && CacheKey(key) == key
      modifies this`cache
      ensures Valid()
      ensures source == Obtain(old(cache), key, fetch)
      ensures cache == Store(old(cache), key, source)
    {
      if key in cache {
        return Cached(cache[key]);
      }
      match fetch
      case Rejected(m) =>
        source := Failed(m);
      case NotOk =>
        source := Failed("Network error");
      case Parsed(found) =>
        var elements := if found.Some? then found.value else [];
        cache := cache[key := elements];
        source := Fetched(elements);
    }

    /** The try block for the trimmed city `trimmed`: the cache lookup,
        then the error text or the text for the list it finds. */
    method Search(host: Host, trimmed: string, fetch: Fetch, r: real) returns (message: string)
      requires Valid()
      requires Lower(trimmed) != [] && CacheKey(Lower(trimmed)) == Lower(trimmed)
      modifies this`cache
      ensures Valid()
      ensures Outcome(cache, message) == Attempt(host, old(cache), radius, coords, trimmed, fetch, r)
    {
      var key := Lower(trimmed);
      var source := Lookup(key, fetch);
      if source.Failed? {
        message := ErrorMessage(source.message);
      } else {
        var reply := PickLocation(host, coords, radius, source.elements, r);
        message := Message(reply, trimmed);
      }
    }

    /** `handleSubmit` for the city `city`, with `fetch` what the network
        would answer on a cache miss and `r` the value of Math.random(). */
    method Submit(host: Host, city: string, fetch: Fetch, r: real)
      requires Valid()
      modifies this`cache, this`result, this`loading, this`loadingLog
      ensures Valid()
      ensures var o := Handle(host, old(cache), radius, coords, city, fetch, r);
              cache == o.cache && result == o.message
      ensures AllSpace(city) ==> loading == old(loading) && loadingLog == old(loadingLog)
      ensures !AllSpace(city) ==> !loading && loadingLog == old(loadingLog) + [true, false]
    {
      var trimmedCity := Trim(city);
      TrimShape(city);
      if trimmedCity == [] {
        result := BlankMessage;
        return;
      }
      CacheKeyNormal(city);
      loading, loadingLog := true, loadingLog + [true];
      result := LoadingMessage;
      result := Search(host, trimmedCity, fetch, r);
      loading, loadingLog := false, loadingLog + [false];
    }
  }
}
