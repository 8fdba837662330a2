/** What one submission of the random-location page guarantees: the blank
    check, the cache, the candidate pool, the random pick, the type tag and
    the text shown. */
module RandomLocationFacts {
  import opened Overpass
  import opened Text
  import opened RandomLocation

  // ------------------------------------------------------------------ blank input

  /** The very first char of every text a non-blank submission can show. */
  lemma {:induction false} MessageStart(host: Host, cache: map<string, seq<Element>>, radius: real,
                                        coords: Option<Position>, city: string, fetch: Fetch, r: real)
    requires !AllSpace(city)
    ensures var m := Handle(host, cache, radius, coords, city, fetch, r).message;
            m != [] && (m[0] == 'E' || m[0] == 'N')
  {
    TrimShape(city);
    var source := Obtain(cache, CacheKey(city), fetch);
    if source.Failed? {
      assert Handle(host, cache, radius, coords, city, fetch, r).message == ErrorMessage(source.message);
    } else {
      SubmissionReply(host, cache, radius, coords, city, fetch, r);
      var es := source.elements;
      match Choose(host, coords, radius, es, r)
      case Shown(text) =>
        var chosen := Selection(host, coords, radius, es, r).value;
        var c := Locate(chosen.cursor, chosen.location);
        DescribeCases(host, coords, chosen.location, chosen.cursor);
        ReportStart(host, coords, NameOf(chosen.location.tags.value), CoordinatesText(host, c).value,
                    TypeOf(chosen.location.tags.value), c);
      case NoResults =>
        assert NotFoundMessage(Trim(city))[0] == 'N';
      case Thrown(m) =>
        assert ErrorMessage(m)[0] == 'E';
    }
  }

  /** A result text starts with its name line. */
  lemma ReportStart(host: Host, coords: Option<Position>, name: string, coordsText: string, kind: string, c: Cursor)
    ensures var t := Report(host, coords, name, coordsText, kind, c); t != [] && t[0] == 'N'
  {
    var head := HeadLines(name, coordsText);
    assert head[0] == 'N';
    var typed := if kind != "" then head + TypeLine(kind) else head;
    assert typed[0] == 'N';
    var measured := if coords.Some? then typed + DistanceLine(host, Distance(host, coords.value, c)) else typed;
    assert measured[0] == 'N';
  }

  /** The blank-city message is shown exactly for a city that is white space
      only, and then nothing else happens: the cache stays as it was and the
      fetch outcome plays no part. */
  lemma BlankInput(host: Host, cache: map<string, seq<Element>>, radius: real, coords: Option<Position>,
                   city: string, fetch: Fetch, r: real)
    ensures Handle(host, cache, radius, coords, city, fetch, r).message == BlankMessage <==> AllSpace(city)
    ensures AllSpace(city) ==> Handle(host, cache, radius, coords, city, fetch, r) == Outcome(cache, BlankMessage)
  {
    TrimShape(city);
    if !AllSpace(city) {
      MessageStart(host, cache, radius, coords, city, fetch, r);
      assert BlankMessage[0] == 'P';
    }
  }

  // ----------------------------------------------------------------------- cache

  /** Cities that differ only in letter case and surrounding white space
      share one cache key. */
  lemma SharedKey(p: string, s: string, q: string, t: string)
    requires AllSpace(p) && AllSpace(q)
    requires Lower(s) == Lower(t)
    ensures CacheKey(p + s + q) == CacheKey(t)
  {
    TrimIgnoresPadding(p, s, q);
    LowerTrim(s);
    LowerTrim(t);
  }

  /** On a hit the fetch outcome plays no part and the cache is unchanged. */
  lemma CacheHit(host: Host, cache: map<string, seq<Element>>, radius: real, coords: Option<Position>,
                 city: string, fetch: Fetch, other: Fetch, r: real)
    requires CacheKey(city) in cache
    ensures Handle(host, cache, radius, coords, city, fetch, r).cache == cache
    ensures Handle(host, cache, radius, coords, city, fetch, r) == Handle(host, cache, radius, coords, city, other, r)
  {
  }

  /** On a miss a read answer is stored under the key (an answer without an
      element list as the empty list) and every other key is untouched; a
      failed request stores nothing and shows the error. */
  lemma CacheMiss(host: Host, cache: map<string, seq<Element>>, radius: real, coords: Option<Position>,
                  city: string, fetch: Fetch, r: real)
    requires !AllSpace(city) && CacheKey(city) !in cache
    ensures fetch.Parsed? ==>
      Handle(host, cache, radius, coords, city, fetch, r).cache ==
        cache[CacheKey(city) := if fetch.elements.Some? then fetch.elements.value else []]
    ensures fetch.Rejected? ==>
      Handle(host, cache, radius, coords, city, fetch, r) == Outcome(cache, "Error: " + fetch.message)
    ensures fetch.NotOk? ==>
      Handle(host, cache, radius, coords, city, fetch, r) == Outcome(cache, "Error: Network error")
  {
    TrimShape(city);
  }

  /** A submission never drops or changes an entry; the only key it may add
      is the city's own. */
  lemma CacheOnlyGrows(host: Host, cache: map<string, seq<Element>>, radius: real, coords: Option<Position>,
                       city: string, fetch: Fetch, r: real)
    ensures var after := Handle(host, cache, radius, coords, city, fetch, r).cache;
            (forall key :: key in cache ==> key in after && after[key] == cache[key]) &&
            (forall key :: key in after && key !in cache ==> key == CacheKey(city))
  {
  }

  /** After a city's list was fetched, a later submission of the same city in
      other letter case or with other padding finds it in the cache. */
  lemma RepeatIsCached(host: Host, cache: map<string, seq<Element>>, radius: real, coords: Option<Position>,
                       t: string, fetch: Fetch, r: real, p: string, s: string, q: string)
    requires !AllSpace(t) && fetch.Parsed?
    requires AllSpace(p) && AllSpace(q) && Lower(s) == Lower(t)
    ensures CacheKey(p + s + q) in Handle(host, cache, radius, coords, t, fetch, r).cache
  {
    TrimShape(t);
    SharedKey(p, s, q, t);
  }

  // ---------------------------------------------------------------- no results

  /** When no element is a candidate the text names the trimmed city as it
      was typed, not its lower-cased key. */
  lemma NoCandidateMessage(host: Host, cache: map<string, seq<Element>>, radius: real, coords: Option<Position>,
                           city: string, fetch: Fetch, r: real)
    requires !AllSpace(city)
    requires var source := Obtain(cache, CacheKey(city), fetch);
             !source.Failed? && Candidates(host, coords, radius, source.elements) == []
    ensures Handle(host, cache, radius, coords, city, fetch, r).message == NotFoundMessage(Trim(city))
  {
    TrimShape(city);
  }

  /** For a non-blank city whose list is obtained, the text shown is the
      one for the reply the list leads to, with the trimmed city. */
  lemma SubmissionReply(host: Host, cache: map<string, seq<Element>>, radius: real, coords: Option<Position>,
                        city: string, fetch: Fetch, r: real)
    requires !AllSpace(city) && !Obtain(cache, CacheKey(city), fetch).Failed?
    ensures Handle(host, cache, radius, coords, city, fetch, r).message ==
            Message(Choose(host, coords, radius, Obtain(cache, CacheKey(city), fetch).elements, r), Trim(city))
  {
    TrimShape(city);
  }

  /** An empty element list, cached or fetched, shows the no-results text. */
  lemma EmptyListMessage(host: Host, cache: map<string, seq<Element>>, radius: real, coords: Option<Position>,
                         city: string, fetch: Fetch, r: real)
    requires !AllSpace(city)
    requires var source := Obtain(cache, CacheKey(city), fetch);
             !source.Failed? && source.elements == []
    ensures Handle(host, cache, radius, coords, city, fetch, r).message == NotFoundMessage(Trim(city))
  {
    NoCandidateMessage(host, cache, radius, coords, city, fetch, r);
  }

  // ------------------------------------------------------------ the candidate pool

  /** The positions, in increasing order, of the elements the radius loop
      keeps. */
  function KeptIndices(host: Host, from: Position, radius: real, es: seq<Element>): seq<int> {
    if es == [] then []
    else
      KeptIndices(host, from, radius, es[..|es| - 1]) +
      (if Within(radius, Distance(host, from, CursorAfter(es))) then [|es| - 1] else [])
  }

  /** The pool is the subsequence of the list at the positions whose
      element, measured where the cursor stands after its own step, lies
      strictly inside the radius. */
  lemma {:induction false} InRadiusSubsequence(host: Host, from: Position, radius: real, es: seq<Element>)
    ensures var pool, idx := InRadius(host, from, radius, es), KeptIndices(host, from, radius, es);
            |idx| == |pool| &&
            (forall k :: 0 <= k < |idx| ==> 0 <= idx[k] < |es| && pool[k] == es[idx[k]]) &&
            (forall k, l :: 0 <= k < l < |idx| ==> idx[k] < idx[l]) &&
            (forall j :: 0 <= j < |es| ==>
               (j in idx <==> Within(radius, Distance(host, from, CursorAfter(es[..j + 1])))))
    decreases |es|
  {
    if es != [] {
      var init := es[..|es| - 1];
      InRadiusSubsequence(host, from, radius, init);
      var idx := KeptIndices(host, from, radius, es);
      forall j | 0 <= j < |es|
        ensures j in idx <==> Within(radius, Distance(host, from, CursorAfter(es[..j + 1])))
      {
        if j < |es| - 1 {
          assert init[..j + 1] == es[..j + 1];
        } else {
          assert es[..j + 1] == es;
        }
      }
    }
  }

  /** Every element of the pool sits at a position the radius loop keeps. */
  lemma InRadiusKeptOnly(host: Host, from: Position, radius: real, es: seq<Element>, k: nat)
    requires k < |InRadius(host, from, radius, es)|
    ensures exists j :: 0 <= j < |es| && es[j] == InRadius(host, from, radius, es)[k] &&
                        Within(radius, Distance(host, from, CursorAfter(es[..j + 1])))
  {
    InRadiusSubsequence(host, from, radius, es);
    var j := KeptIndices(host, from, radius, es)[k];
    assert j in KeptIndices(host, from, radius, es);
  }

  /** The element at every position the radius loop keeps is in the pool. */
  lemma InRadiusKeepsEvery(host: Host, from: Position, radius: real, es: seq<Element>, j: nat)
    requires j < |es| && Within(radius, Distance(host, from, CursorAfter(es[..j + 1])))
    ensures es[j] in InRadius(host, from, radius, es)
  {
    InRadiusSubsequence(host, from, radius, es);
    var idx := KeptIndices(host, from, radius, es);
    assert j in idx;
    var k :| 0 <= k < |idx| && idx[k] == j;
    assert InRadius(host, from, radius, es)[k] == es[j];
  }

  /** An element is a candidate exactly when it sits at some position of
      the list that the radius loop keeps. */
  lemma InRadiusMembership(host: Host, from: Position, radius: real, es: seq<Element>, x: Element)
    ensures x in InRadius(host, from, radius, es) <==>
      exists j :: 0 <= j < |es| && es[j] == x && Within(radius, Distance(host, from, CursorAfter(es[..j + 1])))
  {
    var pool := InRadius(host, from, radius, es);
    if x in pool {
      var k :| 0 <= k < |pool| && pool[k] == x;
      InRadiusKeptOnly(host, from, radius, es, k);
    }
    if j :| 0 <= j < |es| && es[j] == x && Within(radius, Distance(host, from, CursorAfter(es[..j + 1]))) {
      InRadiusKeepsEvery(host, from, radius, es, j);
    }
  }

  /** Without a position the pool is the whole list; with one it is what
      the radius loop keeps. */
  lemma PoolMembership(host: Host, coords: Option<Position>, radius: real, es: seq<Element>, x: Element)
    ensures coords.None? ==> Candidates(host, coords, radius, es) == es
    ensures coords.Some? ==>
      (x in Candidates(host, coords, radius, es) <==>
       exists j :: 0 <= j < |es| && es[j] == x && Within(radius, Distance(host, coords.value, CursorAfter(es[..j + 1]))))
  {
    if coords.Some? {
      InRadiusMembership(host, coords.value, radius, es, x);
    }
  }

  /** An element exactly at the radius is not a candidate, nor one whose
      distance is NaN. */
  lemma BoundaryExcluded(radius: real, d: Option<real>)
    ensures d == Some(radius) ==> !Within(radius, d)
    ensures d == None ==> !Within(radius, d)
    ensures Within(radius, d) <==> d.Some? && d.value < radius
  {
  }

  /** With distances that are never negative, a radius of zero or less
      leaves no candidate. */
  lemma {:induction false} NonPositiveRadiusEmptiesPool(host: Host, from: Position, radius: real, es: seq<Element>)
    requires radius <= 0.0
    requires forall a, b, c, d :: host.distanceKm(a, b, c, d) >= 0.0
    ensures InRadius(host, from, radius, es) == []
    decreases |es|
  {
    if es != [] {
      NonPositiveRadiusEmptiesPool(host, from, radius, es[..|es| - 1]);
    }
  }

  /** The loop's `lat`/`lon` stay at their initial nulls until an element
      with coordinates of its own comes along. */
  lemma {:induction false} CursorAfterUnlocated(es: seq<Element>)
    requires forall j :: 0 <= j < |es| ==> !HasOwnCoordinates(es[j])
    ensures CursorAfter(es) == Start
    decreases |es|
  {
    if es != [] {
      CursorAfterUnlocated(es[..|es| - 1]);
    }
  }

  /** After the loop, `lat`/`lon` hold the coordinates of the last element
      that has coordinates of its own, whichever elements follow it. */
  lemma {:induction false} CursorAfterLastLocated(es: seq<Element>, j: nat)
    requires j < |es| && HasOwnCoordinates(es[j])
    requires forall k :: j < k < |es| ==> !HasOwnCoordinates(es[k])
    ensures CursorAfter(es) == Locate(Start, es[j])
    decreases |es|
  {
    if j < |es| - 1 {
      CursorAfterLastLocated(es[..|es| - 1], j);
    }
  }

  // ------------------------------------------------------------------ the pick

  /** `Math.floor(r * n)` for `r` in [0, 1) is an index of a list of n. */
  lemma DrawInRange(r: real, n: nat)
    requires 0.0 <= r < 1.0 && n > 0
    ensures 0 <= Draw(r, n) < n
  {
    assert r * n as real < n as real;
  }

  /** Every index is drawn, and exactly by the random numbers of an
      interval of length 1/n: the draw is uniform when `r` is. */
  lemma DrawReaches(r: real, k: nat, n: nat)
    requires k < n
    ensures Draw(k as real / n as real, n) == k
    ensures Draw(r, n) == k <==> k as real / n as real <= r < (k + 1) as real / n as real
  {
  }

  /** With a non-empty pool the pick is always the pool's element at the
      drawn index, together with the cursor the loop left. */
  lemma PickFromPool(host: Host, coords: Option<Position>, radius: real, es: seq<Element>, r: real)
    requires 0.0 <= r < 1.0
    requires Candidates(host, coords, radius, es) != []
    ensures var pool := Candidates(host, coords, radius, es);
            0 <= Draw(r, |pool|) < |pool| &&
            Selection(host, coords, radius, es, r) == Some(Chosen(pool[Draw(r, |pool|)], LoopCursor(coords, es))) &&
            Selection(host, coords, radius, es, r).value.location in pool
  {
    DrawInRange(r, |Candidates(host, coords, radius, es)|);
  }

  /** An empty pool leads to the no-results reply, as an empty list does. */
  lemma EmptyPoolNoResults(host: Host, coords: Option<Position>, radius: real, es: seq<Element>, r: real)
    requires Candidates(host, coords, radius, es) == []
    ensures Choose(host, coords, radius, es, r) == NoResults
  {
    assert Draw(r, 0) == 0;
  }

  // --------------------------------------------------------------- the type tag

  /** The type is the value of the first key of the priority list whose tag
      is non-empty; it is empty exactly when every key's tag is. */
  lemma TypeIsFirstTag(tags: map<string, string>)
    ensures TypeOf(tags) == "" <==> forall k :: 0 <= k < |Priority| ==> TagValue(tags, Priority[k]) == ""
    ensures TypeOf(tags) != "" ==>
      exists k :: 0 <= k < |Priority| && TypeOf(tags) == TagValue(tags, Priority[k]) &&
        forall j :: 0 <= j < k ==> TagValue(tags, Priority[j]) == ""
  {
    var k := FirstTagIndex(tags, Priority);
    if k < |Priority| {
      assert TypeOf(tags) == TagValue(tags, Priority[k]);
    }
  }

  /** An amenity outranks a tourism tag. */
  lemma AmenityBeforeTourism()
    ensures TypeOf(map["tourism" := "museum", "amenity" := "cafe", "name" := "Le Procope"]) == "cafe"
  {
    var tags := map["tourism" := "museum", "amenity" := "cafe", "name" := "Le Procope"];
    assert TagValue(tags, Priority[0]) == "" && TagValue(tags, Priority[1]) == "";
    FirstTagIndexAt(tags, Priority, 2);
  }

  // ---------------------------------------------------------------- the result

  /** The name shown is the `name` tag when it is non-empty and "Unnamed"
      otherwise, so it is never empty. */
  lemma NameShown(tags: map<string, string>)
    ensures NameOf(tags) != ""
    ensures NameOf(tags) == (if TagValue(tags, "name") != "" then TagValue(tags, "name") else "Unnamed")
  {
  }

  /** The coordinates shown are the picked element's own; for an element
      without any they are those the loop left: the last located element of
      the list with a position, the initial nulls without one. */
  lemma ShownCoordinates(host: Host, coords: Option<Position>, radius: real, es: seq<Element>, r: real)
    requires Selection(host, coords, radius, es, r).Some?
    ensures var chosen := Selection(host, coords, radius, es, r).value;
            Locate(chosen.cursor, chosen.location) ==
              if HasOwnCoordinates(chosen.location) then Locate(Start, chosen.location)
              else if coords.Some? then CursorAfter(es)
              else Start
  {
  }

  /** Without a position an element with no coordinates of its own shows
      "Not available" and a map link to null. */
  lemma NotAvailableWithoutPosition(host: Host, radius: real, es: seq<Element>, r: real)
    requires Selection(host, None, radius, es, r).Some?
    requires !HasOwnCoordinates(Selection(host, None, radius, es, r).value.location)
    ensures var chosen := Selection(host, None, radius, es, r).value;
            CoordinatesText(host, Locate(chosen.cursor, chosen.location)) == Some("Not available")
  {
  }

  /** A picked element without tags ends in the catch branch: the type
      lookup reads a property of undefined. */
  lemma MissingTagsThrow(host: Host, cache: map<string, seq<Element>>, radius: real, coords: Option<Position>,
                         city: string, fetch: Fetch, r: real)
    requires !AllSpace(city)
    requires var source := Obtain(cache, CacheKey(city), fetch);
             !source.Failed? &&
             var chosen := Selection(host, coords, radius, source.elements, r);
             source.elements != [] && chosen.Some? && chosen.value.location.tags.None? &&
             CoordinatesText(host, Locate(chosen.value.cursor, chosen.value.location)).Some?
    ensures Handle(host, cache, radius, coords, city, fetch, r).message == "Error: " + UndefinedRead("type")
  {
    var es := Obtain(cache, CacheKey(city), fetch).elements;
    var chosen := Selection(host, coords, radius, es, r).value;
    DescribeCases(host, coords, chosen.location, chosen.cursor);
    assert Choose(host, coords, radius, es, r) == Thrown(UndefinedRead("type"));
    SubmissionReply(host, cache, radius, coords, city, fetch, r);
  }

  /** A node missing its `lat` ends in the catch branch: `toFixed` is read
      on undefined. */
  lemma MissingLatitudeThrows(host: Host, coords: Option<Position>, location: Element, carried: Cursor)
    requires location.kind == "node" && location.lat.None?
    ensures Describe(host, coords, location, carried) == Thrown(UndefinedRead("toFixed"))
  {
    DescribeCases(host, coords, location, carried);
  }

  /** A padded, capitalised city trims to its letters and lower-cases to
      its key. */
  lemma ParisKey()
    ensures Trim(" Paris ") == "Paris" && CacheKey(" Paris ") == "paris"
  {
    TrimOfClean("Paris");
    TrimIgnoresPadding(" ", "Paris", " ");
    assert " " + "Paris" + " " == " Paris ";
    assert Lower("Paris") == "paris";
  }

  // ------------------------------------------------------ a one-element example

  /** A node at (lat, lon) tagged only with a name and a tourism value. */
  function Sight(name: string, kind: string, lat: real, lon: real): Element {
    Element("node", Some(lat), Some(lon), None, Some(map["name" := name, "tourism" := kind]))
  }

  /** A sight's name is its name tag and its type the tourism tag: no
      earlier key of the priority list is among its tags. */
  lemma SightTags(name: string, kind: string, lat: real, lon: real)
    requires name != "" && kind != ""
    ensures NameOf(Sight(name, kind, lat, lon).tags.value) == name
    ensures TypeOf(Sight(name, kind, lat, lon).tags.value) == kind
  {
    var tags := Sight(name, kind, lat, lon).tags.value;
    forall j | 0 <= j < 9 ensures TagValue(tags, Priority[j]) == "" {
    }
    FirstTagIndexAt(tags, Priority, 9);
  }

  /** Described without a position, a sight shows its own name, its own
      coordinates and its tourism value as the type. */
  lemma SightDescribed(host: Host, name: string, kind: string, lat: real, lon: real)
    requires name != "" && kind != ""
    ensures Describe(host, None, Sight(name, kind, lat, lon), Start) ==
      Shown(Report(host, None, name, host.fixed6(lat) + ", " + host.fixed6(lon), kind, Cursor(Num(lat), Num(lon))))
  {
    SightTags(name, kind, lat, lon);
    DescribeCases(host, None, Sight(name, kind, lat, lon), Start);
  }

  /** Without a position a result has no distance line: the name and
      coordinates, the type line of a non-empty type, then the map link. */
  lemma ReportWithoutPosition(host: Host, name: string, coordsText: string, kind: string, c: Cursor)
    requires kind != ""
    ensures Report(host, None, name, coordsText, kind, c) == HeadLines(name, coordsText) + TypeLine(kind) + LinkLine(host, c)
  {
  }

  /** A type without underscores is shown as it is. */
  lemma TypeLineVerbatim(kind: string)
    requires '_' !in kind
    ensures TypeLine(kind) == "<br/>Type: " + kind
  {
    UnderscoresReplaced(kind);
    assert UnderscoresToSpaces(kind) == kind;
  }

  /** The map link puts the longitude before the latitude. */
  lemma MapUrlLonFirst(host: Host, lat: real, lon: real)
    ensures MapUrl(host, Cursor(Num(lat), Num(lon))) ==
      "https://yandex.ru/maps/?pt=" + host.numberText(lon) + "," + host.numberText(lat) + "&z=12&l=map"
  {
  }

  /** The whole description of a sight whose type has no underscore. */
  lemma SightShown(host: Host, name: string, kind: string, lat: real, lon: real)
    requires name != "" && kind != "" && '_' !in kind
    ensures Describe(host, None, Sight(name, kind, lat, lon), Start) ==
      Shown(HeadLines(name, host.fixed6(lat) + ", " + host.fixed6(lon)) + "<br/>Type: " + kind
            + LinkLine(host, Cursor(Num(lat), Num(lon))))
  {
    SightDescribed(host, name, kind, lat, lon);
    ReportWithoutPosition(host, name, host.fixed6(lat) + ", " + host.fixed6(lon), kind, Cursor(Num(lat), Num(lon)));
    TypeLineVerbatim(kind);
  }

  /** The Eiffel Tower, a node tagged `tourism=attraction`, is shown with
      its name, its own coordinates, the type "attraction" and a map link
      at its longitude and latitude. */
  lemma EiffelTowerShown(host: Host, lat: real, lon: real)
    ensures Describe(host, None, Sight("Eiffel Tower", "attraction", lat, lon), Start) ==
      Shown(HeadLines("Eiffel Tower", host.fixed6(lat) + ", " + host.fixed6(lon)) + "<br/>Type: " + "attraction"
            + LinkLine(host, Cursor(Num(lat), Num(lon))))
    ensures MapUrl(host, Cursor(Num(lat), Num(lon))) ==
      "https://yandex.ru/maps/?pt=" + host.numberText(lon) + "," + host.numberText(lat) + "&z=12&l=map"
  {
    var name, kind := "Eiffel Tower", "attraction";
    assert |name| == 12;
    assert '_' !in kind by {
      assert |kind| == 10;
      assert kind == ['a', 't', 't', 'r', 'a', 'c', 't', 'i', 'o', 'n'];
    }
    SightShown(host, name, kind, lat, lon);
    MapUrlLonFirst(host, lat, lon);
  }
}
