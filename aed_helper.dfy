/** The nearest-AED resolver of the socket server: a memoised loader for the
    GeoJSON dataset of AED locations, and the query that maps every feature to
    a record, sorts the records by distance and keeps the first `count`.

    The great-circle distance is trigonometry on floating point; the model
    takes it as a parameter `dist(lat1, lon1, lat2, lon2)` and assumes nothing
    about it. Reading and parsing the file are the parameter `read` of the
    loader: `None` when the file cannot be read or is not JSON. */
module AedHelper {
  import opened JsValues

  /** A GeoJSON position: longitude first, then latitude, then optional
      further numbers (section 3.1.1 of RFC 7946 requires at least two). */
  type Position = c: seq<real> | |c| >= 2 witness [0.0, 0.0]

  /** The dataset's property keys that the resolver reads; each may be absent. */
  datatype Properties = Properties(
    locationDescription: Option<string>,  // AED_LOCATION_DESCRIPTION
    floorLevel: Option<string>,           // AED_LOCATION_FLOOR_LEVEL
    buildingName: Option<string>,         // BUILDING_NAME
    roadName: Option<string>,             // ROAD_NAME
    houseNumber: Option<string>,          // HOUSE_NUMBER
    aedId: Option<string>)                // AED_ID

  datatype Feature = Feature(coordinates: Position, properties: Properties)

  /** The parsed document; `features` is absent when the JSON has no such key. */
  datatype Document = Document(features: Option<seq<Feature>>)

  /** One entry of the answer. */
  datatype AedRecord = AedRecord(
    latitude: real,
    longitude: real,
    distance: real,
    description: string,
    floorLevel: string,
    buildingName: Option<string>,
    roadName: Option<string>,
    houseNumber: Option<string>,
    aedId: Option<string>)

  /** distanceInMeters(lat1, lon1, lat2, lon2). */
  type DistanceFn = (real, real, real, real) -> real

  const DefaultCount: int := 5
  const NoDescription: string := "No description available"
  const NoFloorLevel: string := "N/A"

  /** The record built for one feature, seen from (latitude, longitude). */
  function ToRecord(f: Feature, latitude: real, longitude: real, dist: DistanceFn): (r: AedRecord)
    // positions are [longitude, latitude]
    ensures r.latitude == f.coordinates[1] && r.longitude == f.coordinates[0]
    ensures r.distance == dist(latitude, longitude, r.latitude, r.longitude)
    // present, non-empty properties are copied; the others get their defaults
    ensures Truthy(f.properties.locationDescription) ==> r.description == f.properties.locationDescription.value
    ensures !Truthy(f.properties.locationDescription) ==> r.description == NoDescription
    ensures Truthy(f.properties.floorLevel) ==> r.floorLevel == f.properties.floorLevel.value
    ensures !Truthy(f.properties.floorLevel) ==> r.floorLevel == NoFloorLevel
    ensures r.description != "" && r.floorLevel != ""
    ensures r.buildingName.Some? <==> Truthy(f.properties.buildingName)
    ensures r.roadName.Some? <==> Truthy(f.properties.roadName)
    ensures r.houseNumber.Some? <==> Truthy(f.properties.houseNumber)
    ensures r.aedId.Some? <==> Truthy(f.properties.aedId)
    ensures r.buildingName.Some? ==> r.buildingName == f.properties.buildingName
    ensures r.roadName.Some? ==> r.roadName == f.properties.roadName
    ensures r.houseNumber.Some? ==> r.houseNumber == f.properties.houseNumber
    ensures r.aedId.Some? ==> r.aedId == f.properties.aedId
  {
    var lon := f.coordinates[0];
    var lat := f.coordinates[1];
    var props := f.properties;
    AedRecord(
      lat, lon, dist(latitude, longitude, lat, lon),
      OrElse(props.locationDescription, NoDescription),
      OrElse(props.floorLevel, NoFloorLevel),
      OrNull(props.buildingName),
      OrNull(props.roadName),
      OrNull(props.houseNumber),
      OrNull(props.aedId))
  }

  /** `features.map(...)`: one record per feature, in dataset order. */
  function ToRecords(fs: seq<Feature>, latitude: real, longitude: real, dist: DistanceFn): (rs: seq<AedRecord>)
    ensures |rs| == |fs|
    ensures forall i :: 0 <= i < |fs| ==> rs[i] == ToRecord(fs[i], latitude, longitude, dist)
  {
    seq(|fs|, i requires 0 <= i < |fs| => ToRecord(fs[i], latitude, longitude, dist))
  }

  predicate SortedByDistance(rs: seq<AedRecord>) {
    forall i, j :: 0 <= i < j < |rs| ==> rs[i].distance <= rs[j].distance
  }

  /** The records at distance `d`, in their order in `rs`. */
  function AtDistance(rs: seq<AedRecord>, d: real): (r: seq<AedRecord>)
    ensures |r| <= |rs|
  {
    if rs == [] then []
    else (if rs[0].distance == d then [rs[0]] else []) + AtDistance(rs[1..], d)
  }

  /** Inserts `x` before the first record that is at least as far: a record
      already in `rs` at the same distance stays behind `x`. */
  function Insert(x: AedRecord, rs: seq<AedRecord>): (r: seq<AedRecord>)
    requires SortedByDistance(rs)
    ensures SortedByDistance(r)
    ensures multiset(r) == multiset(rs) + multiset{x}
    ensures |r| == |rs| + 1
    ensures r[0] == x || (rs != [] && r[0] == rs[0])
  {
    if rs == [] || x.distance <= rs[0].distance then [x] + rs
    else
      assert rs == [rs[0]] + rs[1..];
      [rs[0]] + Insert(x, rs[1..])
  }

  /** `sort((a, b) => a.distance - b.distance)`, a stable sort: the output is
      ordered by distance and holds the same records. That it keeps ties in
      their input order is SortKeepsTies. */
  function SortByDistance(rs: seq<AedRecord>): (r: seq<AedRecord>)
    ensures SortedByDistance(r)
    ensures multiset(r) == multiset(rs)
    ensures |r| == |rs|
  {
    if rs == [] then []
    else
      assert rs == [rs[0]] + rs[1..];
      Insert(rs[0], SortByDistance(rs[1..]))
  }

  lemma {:induction false} InsertKeepsTies(x: AedRecord, rs: seq<AedRecord>, d: real)
    requires SortedByDistance(rs)
    ensures AtDistance(Insert(x, rs), d) == (if x.distance == d then [x] else []) + AtDistance(rs, d)
  {
    var r := Insert(x, rs);
    if rs == [] || x.distance <= rs[0].distance {
      assert r == [x] + rs;
      assert r[0] == x && r[1..] == rs;
    } else {
      var tail := Insert(x, rs[1..]);
      assert r == [rs[0]] + tail;
      assert r[0] == rs[0] && r[1..] == tail;
      InsertKeepsTies(x, rs[1..], d);
      assert AtDistance(rs, d) == (if rs[0].distance == d then [rs[0]] else []) + AtDistance(rs[1..], d);
      assert x.distance == d ==> rs[0].distance != d;
    }
  }

  /** Stability: for every distance, the records at that distance come out in
      the order they went in. */
  lemma {:induction false} SortKeepsTies(rs: seq<AedRecord>, d: real)
    ensures AtDistance(SortByDistance(rs), d) == AtDistance(rs, d)
  {
    if rs != [] {
      SortKeepsTies(rs[1..], d);
      InsertKeepsTies(rs[0], SortByDistance(rs[1..]), d);
    }
  }

  /** The end index of `slice(0, count)` on an array of length n, as
      Array.prototype.slice computes it: a negative count counts from the end. */
  function SliceEnd(n: nat, count: int): (e: nat)
    ensures e <= n
    ensures 0 <= count ==> e == if count < n then count else n
    ensures count < 0 ==> e == if n + count < 0 then 0 else n + count
  {
    if count < 0 then (if n + count < 0 then 0 else n + count)
    else if count < n then count
    else n
  }

  /** The records of a loaded document, nearest first. */
  function Ranked(fs: seq<Feature>, latitude: real, longitude: real, dist: DistanceFn): (r: seq<AedRecord>)
    ensures SortedByDistance(r)
    ensures multiset(r) == multiset(ToRecords(fs, latitude, longitude, dist))
  {
    SortByDistance(ToRecords(fs, latitude, longitude, dist))
  }

  /** findNearestAEDs on the document that loadAEDData returned (`count` is
      None when the caller leaves it out). */
  function FindNearest(data: Option<Document>, latitude: real, longitude: real,
                       count: Option<int>, dist: DistanceFn): (r: seq<AedRecord>)
    ensures data.None? || data.value.features.None? ==> r == []
    ensures data.Some? && data.value.features.Some? ==>
              |r| == SliceEnd(|data.value.features.value|, count.GetOr(DefaultCount))
    ensures SortedByDistance(r)
  {
    if data.None? || data.value.features.None? then []
    else
      var all := Ranked(data.value.features.value, latitude, longitude, dist);
      all[..SliceEnd(|all|, count.GetOr(DefaultCount))]
  }

  /** Cutting a sorted sequence anywhere leaves nothing behind the cut that is
      nearer than what is before it. */
  lemma PrefixIsNearest(sorted: seq<AedRecord>, e: nat)
    requires SortedByDistance(sorted) && e <= |sorted|
    ensures multiset(sorted) - multiset(sorted[..e]) == multiset(sorted[e..])
    ensures forall a, b :: a in sorted[..e] && b in sorted[e..] ==> a.distance <= b.distance
  {
    assert sorted == sorted[..e] + sorted[e..];
    forall a, b | a in sorted[..e] && b in sorted[e..]
      ensures a.distance <= b.distance
    {
      var i :| 0 <= i < e && sorted[i] == a;
      var j :| e <= j < |sorted| && sorted[j] == b;
    }
  }

  /** The answer is the `count` nearest: it is drawn from the dataset's
      records, and every record left out is at least as far as every record
      returned. */
  lemma FindNearestIsNearest(fs: seq<Feature>, latitude: real, longitude: real,
                             count: Option<int>, dist: DistanceFn)
    ensures var all := ToRecords(fs, latitude, longitude, dist);
            var r := FindNearest(Some(Document(Some(fs))), latitude, longitude, count, dist);
            && multiset(r) <= multiset(all)
            && forall a, b :: a in r && b in multiset(all) - multiset(r) ==> a.distance <= b.distance
  {
    var all := ToRecords(fs, latitude, longitude, dist);
    var sorted := Ranked(fs, latitude, longitude, dist);
    var e := SliceEnd(|sorted|, count.GetOr(DefaultCount));
    var r := FindNearest(Some(Document(Some(fs))), latitude, longitude, count, dist);
    assert r == sorted[..e];
    PrefixIsNearest(sorted, e);
    assert multiset(all) == multiset(sorted);
    assert multiset(all) - multiset(r) == multiset(sorted[e..]);
    assert forall b :: b in multiset(sorted[e..]) <==> b in sorted[e..];
  }

  lemma {:induction false} AtDistanceAppend(a: seq<AedRecord>, b: seq<AedRecord>, d: real)
    ensures AtDistance(a + b, d) == AtDistance(a, d) + AtDistance(b, d)
  {
    if a != [] {
      assert (a + b)[1..] == a[1..] + b;
      AtDistanceAppend(a[1..], b, d);
    } else {
      assert a + b == b;
    }
  }

  /** Ties at the cut keep dataset order: for every distance, the records
      returned at that distance are the first ones of the dataset at that
      distance. */
  lemma FindNearestKeepsTies(fs: seq<Feature>, latitude: real, longitude: real,
                             count: Option<int>, dist: DistanceFn, d: real)
    ensures var all := ToRecords(fs, latitude, longitude, dist);
            var r := FindNearest(Some(Document(Some(fs))), latitude, longitude, count, dist);
            var ties := AtDistance(r, d);
            && |ties| <= |AtDistance(all, d)|
            && ties == AtDistance(all, d)[..|ties|]
  {
    var all := ToRecords(fs, latitude, longitude, dist);
    var sorted := Ranked(fs, latitude, longitude, dist);
    var e := SliceEnd(|sorted|, count.GetOr(DefaultCount));
    assert sorted == sorted[..e] + sorted[e..];
    AtDistanceAppend(sorted[..e], sorted[e..], d);
    SortKeepsTies(all, d);
  }

  /** loadAEDData's result and its cache after the call. */
  datatype LoadResult = LoadResult(cache: Option<Document>, result: Option<Document>)

  /** loadAEDData: a cached document is returned as it is, without reading. On
      a miss, a document that parses is cached, but the log line that follows
      dereferences `features`; without that key the call fails after caching. */
  function Load(cache: Option<Document>, read: Option<Document>): (l: LoadResult)
    // memoised: once a document is cached, it is the answer and stays cached
    ensures cache.Some? ==> l == LoadResult(cache, cache)
    // whatever the call returns is what is cached
    ensures l.result.Some? ==> l.result == l.cache
    ensures cache.None? ==> l.cache == read
    ensures cache.None? ==> (l.result.Some? <==> read.Some? && read.value.features.Some?)
  {
    if cache.Some? then LoadResult(cache, cache)
    else if read.None? then LoadResult(None, None)
    else if read.value.features.None? then LoadResult(read, None)
    else LoadResult(read, read)
  }

  /** After any call that cached a document, every later call returns that
      document whatever the file would now read as, and the query's answer no
      longer depends on the file. */
  lemma LoadIsMemoised(cache: Option<Document>, read1: Option<Document>, read2: Option<Document>,
                       latitude: real, longitude: real, count: Option<int>, dist: DistanceFn)
    requires Load(cache, read1).cache.Some?
    ensures var first := Load(cache, read1);
            && Load(first.cache, read2) == LoadResult(first.cache, first.cache)
            && (first.result.Some? ==> FindNearest(Load(first.cache, read2).result, latitude, longitude, count, dist)
                                       == FindNearest(first.result, latitude, longitude, count, dist))
  {
  }

  /** The module-level `aedData` cache and the two exported functions. */
  class AedIndex {
    var aedData: Option<Document>

    constructor ()
      ensures aedData == None
    {
      aedData := None;
    }

    /** loadAEDData; `read` is what reading and parsing the file would give. */
    method LoadAedData(read: Option<Document>) returns (r: Option<Document>)
      modifies this
      ensures LoadResult(aedData, r) == Load(old(aedData), read)
    {
      if aedData.Some? {
        return aedData;
      }
      if read.None? {
        return None;
      }
      aedData := read;
      if aedData.value.features.None? {
        return None;
      }
      r := aedData;
    }

    /** findNearestAEDs(latitude, longitude, count). */
    method FindNearestAeds(latitude: real, longitude: real, count: Option<int>,
                           read: Option<Document>, dist: DistanceFn) returns (r: seq<AedRecord>)
      modifies this
      ensures aedData == Load(old(aedData), read).cache
      ensures r == FindNearest(Load(old(aedData), read).result, latitude, longitude, count, dist)
    {
      var data := LoadAedData(read);
      if data.None? || data.value.features.None? {
        return [];
      }
      var all := SortByDistance(ToRecords(data.value.features.value, latitude, longitude, dist));
      r := all[..SliceEnd(|all|, count.GetOr(DefaultCount))];
    }
  }
}
