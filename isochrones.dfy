/**
 * `generate_isochrones` of `isochrone.py`: for every location row, load the
 * isochrone from the cache directory or request it (and store it), then
 * rebuild its MultiPolygon when the answer has results. The cache directory
 * is a map from file name to the JSON stored in it.
 */
module Isochrones {

  import opened Wrappers
  import opened LocationIO
  import opened Arrival
  import opened IsochroneShape
  import opened IsochroneRetry

  /** A row of the locations frame: its name-or-id column and its point. */
  datatype Place = Place(nameOrId: string, lat: real, lng: real)

  /**
   * A row of the result: the location's own name-or-id (as in the input
   * frame), the "TravelType", "TravelMinutes" and "ArrivalTime" columns and
   * the isochrone geometry (`None` when there was no result).
   */
  datatype IsochroneRow = IsochroneRow(nameOrId: string, travel: TravelType, minutes: int, arrivalLabel: string,
                                       geometry: Option<seq<seq<seq<seq<real>>>>>)

  /** What one call works with: the generator's settings and the call's arguments. */
  datatype Settings = Settings(travel: TravelType, arrival: ArrivalTime, cacheEnabled: bool, minutes: int, maxRetries: int)

  type Oracle = (IsoRequest, nat) -> PostReply

  /** The POST oracle seen by the retry loop of one request. */
  function AttemptsOf(post: Oracle, request: IsoRequest): nat -> PostReply {
    (k: nat) => post(request, k)
  }

  /** The arrival search sent for a location: `travel_time` is in seconds. */
  function RequestOf(s: Settings, loc: Location): (q: IsoRequest)
    ensures q.id == loc.nameOrId && q.travelSeconds == 60 * s.minutes
  {
    IsoRequest(loc.nameOrId, loc.lat, loc.lng, s.arrival, s.minutes * 60, s.travel)
  }

  /** The cache file of a place: its sanitised identifier keys the file. */
  function FileOf(s: Settings, place: Place): string
    requires s.arrival.Valid()
  {
    CacheFilename(NewLocation(place.nameOrId, place.lat, place.lng).nameOrId, s.travel, s.minutes, s.arrival)
  }

  /** What one location row is turned into before the cache is consulted. */
  datatype Target = Target(place: Place, file: string, request: IsoRequest)

  /** The `Location` built from a row, its cache file and its request. */
  function TargetOf(s: Settings, place: Place): Target
    requires s.arrival.Valid()
  {
    Target(place, FileOf(s, place), RequestOf(s, NewLocation(place.nameOrId, place.lat, place.lng)))
  }

  function TargetsOf(s: Settings, places: seq<Place>): (ts: seq<Target>)
    requires s.arrival.Valid()
    ensures |ts| == |places|
  {
    seq(|places|, k requires 0 <= k < |places| => TargetOf(s, places[k]))
  }

  /** The columns of a result row that do not depend on the answer. */
  predicate RowOf(s: Settings, timeLabel: string, place: Place, row: IsochroneRow) {
    row.nameOrId == place.nameOrId && row.travel == s.travel && row.minutes == s.minutes && row.arrivalLabel == timeLabel
  }

  /** `isochrone.get("results")` and `if results:`, then the shape of the first result. */
  function RowFrom(s: Settings, timeLabel: string, place: Place, payload: Payload): (r: Result<IsochroneRow, IsoFault>)
    ensures r.Err? <==> !payload.Object?
    ensures payload.Null? ==> r == Err(NullPayload)
    ensures payload.NotObject? ==> r == Err(NoGetMethod)
    ensures r.Ok? ==> RowOf(s, timeLabel, place, r.value)
    ensures r.Ok? ==> (r.value.geometry.Some? <==> payload.results.Some? && payload.results.value != [])
    ensures r.Ok? && r.value.geometry.Some? ==> r.value.geometry.value == MultiPolygonOf(payload.results.value[0].shapes)
  {
    match payload
    case Null => Err(NullPayload)
    case NotObject => Err(NoGetMethod)
    case Object(results) =>
      var geometry := if results.Some? && results.value != [] then Some(MultiPolygonOf(results.value[0].shapes)) else None;
      Ok(IsochroneRow(place.nameOrId, s.travel, s.minutes, timeLabel, geometry))
  }

  /** The isochrone for one place, the cache afterwards and the requests it was fetched with. */
  datatype PlaceRun = PlaceRun(row: Result<IsochroneRow, IsoFault>, files: map<string, Payload>, fetched: seq<IsoRequest>)

  /** The stored JSON `json.load` gives for `file`, or `null` when there is none. */
  function Cached(s: Settings, files: map<string, Payload>, file: string): Payload {
    if s.cacheEnabled && file in files then files[file] else Null
  }

  /** A cache miss: the location is requested, and the answer stored when a cache directory is set. */
  function Fetch(s: Settings, timeLabel: string, files: map<string, Payload>, t: Target, post: Oracle): (p: PlaceRun)
    ensures p.fetched == [t.request]
    ensures !s.cacheEnabled ==> p.files == files
    ensures p.row.Ok? ==> RowOf(s, timeLabel, t.place, p.row.value)
  {
    var run := Retry(AttemptsOf(post, t.request), s.maxRetries);
    if run.outcome.Err? then PlaceRun(Err(run.outcome.error), files, [t.request])
    else
      var payload := run.outcome.value;
      var files' := if s.cacheEnabled then files[t.file := payload] else files;
      PlaceRun(RowFrom(s, timeLabel, t.place, payload), files', [t.request])
  }

  /** One iteration of the loop over the locations. */
  function PlaceStep(s: Settings, timeLabel: string, files: map<string, Payload>, t: Target, post: Oracle): (p: PlaceRun)
    ensures |p.fetched| <= 1
    ensures !s.cacheEnabled ==> p.files == files
    ensures p.row.Ok? ==> RowOf(s, timeLabel, t.place, p.row.value)
  {
    var cached := Cached(s, files, t.file);
    if !cached.Null? then PlaceRun(RowFrom(s, timeLabel, t.place, cached), files, [])
    else Fetch(s, timeLabel, files, t, post)
  }

  /** The rows so far, the cache, the requests made and the exception that ended the loop, if any. */
  datatype LoopRun = LoopRun(rows: seq<IsochroneRow>, files: map<string, Payload>, fetched: seq<IsoRequest>, failure: Option<IsoFault>)

  /** The loop over the locations in order, stopping at the first exception. */
  function RunPlaces(s: Settings, timeLabel: string, files: map<string, Payload>, targets: seq<Target>, post: Oracle): (r: LoopRun)
    ensures |r.rows| <= |targets| && |r.fetched| <= |targets|
    ensures r.failure.None? ==> |r.rows| == |targets|
    ensures !s.cacheEnabled ==> r.files == files
    decreases |targets|
  {
    if targets == [] then LoopRun([], files, [], None)
    else
      var prev := RunPlaces(s, timeLabel, files, targets[..|targets| - 1], post);
      if prev.failure.Some? then prev
      else
        Extend(prev, PlaceStep(s, timeLabel, prev.files, targets[|targets| - 1], post))
  }

  /** The run after one more location: its row is appended, or its exception ends the loop. */
  function Extend(prev: LoopRun, step: PlaceRun): LoopRun {
    match step.row
    case Ok(row) => LoopRun(prev.rows + [row], step.files, prev.fetched + step.fetched, None)
    case Err(e) => LoopRun(prev.rows, step.files, prev.fetched + step.fetched, Some(e))
  }

  /** `_get_api_keys`: both environment variables must be set and non-empty. */
  predicate HasKeys(traveltimeId: string, traveltimeKey: string) {
    traveltimeId != "" && traveltimeKey != ""
  }

  /** The whole call: the key check, the arrival label computed once, then the loop over all places. */
  function GenerateAll(s: Settings, files: map<string, Payload>, places: seq<Place>, traveltimeId: string, traveltimeKey: string, post: Oracle): (r: LoopRun)
    requires s.arrival.Valid()
    ensures !HasKeys(traveltimeId, traveltimeKey) ==> r == LoopRun([], files, [], Some(MissingApiKeys))
  {
    if !HasKeys(traveltimeId, traveltimeKey) then LoopRun([], files, [], Some(MissingApiKeys))
    else RunPlaces(s, ArrivalLabel(s.arrival), files, TargetsOf(s, places), post)
  }

  /** The result rows follow the location rows, in order, with the call's travel type, minutes and arrival label. */
  lemma {:induction false} RowsFollowTargets(s: Settings, timeLabel: string, files: map<string, Payload>, targets: seq<Target>, post: Oracle)
    ensures var r := RunPlaces(s, timeLabel, files, targets, post);
            forall k :: 0 <= k < |r.rows| ==> RowOf(s, timeLabel, targets[k].place, r.rows[k])
    decreases |targets|
  {
    if targets != [] {
      var init := targets[..|targets| - 1];
      RowsFollowTargets(s, timeLabel, files, init, post);
      var prev := RunPlaces(s, timeLabel, files, init, post);
      assert forall k :: 0 <= k < |prev.rows| ==> init[k] == targets[k];
      LastRow(s, timeLabel, files, targets, post);
    }
  }

  /** The last location adds at most one row, and that row is the location's. */
  lemma LastRow(s: Settings, timeLabel: string, files: map<string, Payload>, targets: seq<Target>, post: Oracle)
    requires targets != []
    ensures var prev := RunPlaces(s, timeLabel, files, targets[..|targets| - 1], post);
            var r := RunPlaces(s, timeLabel, files, targets, post);
            r.rows == prev.rows ||
            (r.rows == prev.rows + [r.rows[|prev.rows|]] && RowOf(s, timeLabel, targets[|targets| - 1].place, r.rows[|prev.rows|]))
  {
  }

  /**
   * A call that raises nothing returns one row per location row, in order,
   * each carrying the location's own identifier, the travel type, the
   * minutes and the "Weekday at H:MM AM" label.
   */
  lemma OneRowPerPlace(s: Settings, files: map<string, Payload>, places: seq<Place>, traveltimeId: string, traveltimeKey: string, post: Oracle)
    requires s.arrival.Valid()
    ensures var r := GenerateAll(s, files, places, traveltimeId, traveltimeKey, post);
            (r.failure.None? ==> |r.rows| == |places|) &&
            forall k :: 0 <= k < |r.rows| ==>
              r.rows[k].nameOrId == places[k].nameOrId && r.rows[k].travel == s.travel &&
              r.rows[k].minutes == s.minutes && r.rows[k].arrivalLabel == ArrivalLabel(s.arrival)
  {
    if HasKeys(traveltimeId, traveltimeKey) {
      RowsFollowTargets(s, ArrivalLabel(s.arrival), files, TargetsOf(s, places), post);
    }
  }

  /** A stored non-null answer is used as is: no request is made and the cache is not written. */
  lemma CacheHitSkipsRequest(s: Settings, timeLabel: string, files: map<string, Payload>, t: Target, post: Oracle)
    requires s.cacheEnabled && t.file in files && !files[t.file].Null?
    ensures PlaceStep(s, timeLabel, files, t, post) == PlaceRun(RowFrom(s, timeLabel, t.place, files[t.file]), files, [])
  {
  }

  /**
   * On a miss (no file, or a file holding `null`) the location is requested
   * once, and with a cache directory the answer is written to its file
   * whatever it holds.
   */
  lemma CacheMissFetchesAndStores(s: Settings, timeLabel: string, files: map<string, Payload>, t: Target, post: Oracle)
    requires Cached(s, files, t.file).Null?
    ensures var run := Retry(AttemptsOf(post, t.request), s.maxRetries);
            var p := PlaceStep(s, timeLabel, files, t, post);
            p.fetched == [t.request] &&
            (run.outcome.Err? ==> p.row == Err(run.outcome.error) && p.files == files) &&
            (run.outcome.Ok? && s.cacheEnabled ==> p.files == files[t.file := run.outcome.value]) &&
            (run.outcome.Ok? ==> p.row == RowFrom(s, timeLabel, t.place, run.outcome.value))
  {
  }

  /** Two locations share a cache file exactly when their identifiers sanitise to the same string. */
  lemma SharedFileExactlyWhenSameId(s: Settings, p1: Place, p2: Place)
    requires s.arrival.Valid()
    ensures FileOf(s, p1) == FileOf(s, p2) <==> Sanitize(p1.nameOrId) == Sanitize(p2.nameOrId)
  {
    var l1 := NewLocation(p1.nameOrId, p1.lat, p1.lng);
    var l2 := NewLocation(p2.nameOrId, p2.lat, p2.lng);
    if FileOf(s, p1) == FileOf(s, p2) {
      CacheFilenameInjective(l1.nameOrId, s.travel, s.minutes, s.arrival, l2.nameOrId, s.travel, s.minutes, s.arrival);
    }
  }

  /** Without a cache directory every location is requested. */
  lemma {:induction false} NoCacheFetchesEveryTarget(s: Settings, timeLabel: string, files: map<string, Payload>, targets: seq<Target>, post: Oracle)
    requires !s.cacheEnabled
    ensures var r := RunPlaces(s, timeLabel, files, targets, post);
            r.failure.None? ==> r.fetched == seq(|targets|, k requires 0 <= k < |targets| => targets[k].request)
    decreases |targets|
  {
    if targets != [] {
      NoCacheFetchesEveryTarget(s, timeLabel, files, targets[..|targets| - 1], post);
    }
  }

  /** Every non-null stored answer is still stored, unchanged. */
  predicate Keeps(before: map<string, Payload>, after: map<string, Payload>) {
    forall f :: f in before && !before[f].Null? ==> f in after && after[f] == before[f]
  }

  /** Each row is what its location's stored, non-null answer gives. */
  predicate Covers(s: Settings, timeLabel: string, files: map<string, Payload>, targets: seq<Target>, rows: seq<IsochroneRow>) {
    |rows| == |targets| &&
    forall k :: 0 <= k < |targets| ==>
      targets[k].file in files && !files[targets[k].file].Null? &&
      RowFrom(s, timeLabel, targets[k].place, files[targets[k].file]) == Ok(rows[k])
  }

  lemma CoversKept(s: Settings, timeLabel: string, files: map<string, Payload>, files': map<string, Payload>, targets: seq<Target>, rows: seq<IsochroneRow>)
    requires Covers(s, timeLabel, files, targets, rows) && Keeps(files, files')
    ensures Covers(s, timeLabel, files', targets, rows)
  {
    forall k | 0 <= k < |targets|
      ensures targets[k].file in files' && files'[targets[k].file] == files[targets[k].file]
    {
    }
  }

  /** A step that yields a row leaves the row's answer stored, and keeps every other non-null answer. */
  lemma StepStores(s: Settings, timeLabel: string, files: map<string, Payload>, t: Target, post: Oracle)
    requires s.cacheEnabled
    ensures var p := PlaceStep(s, timeLabel, files, t, post);
            Keeps(files, p.files) &&
            (p.row.Ok? ==> t.file in p.files && !p.files[t.file].Null? && RowFrom(s, timeLabel, t.place, p.files[t.file]) == p.row)
  {
  }

  /** After a run that raised nothing, every row is backed by a stored answer. */
  lemma {:induction false} RunStores(s: Settings, timeLabel: string, files: map<string, Payload>, targets: seq<Target>, post: Oracle)
    requires s.cacheEnabled
    ensures var r := RunPlaces(s, timeLabel, files, targets, post);
            Keeps(files, r.files) && (r.failure.None? ==> Covers(s, timeLabel, r.files, targets, r.rows))
    decreases |targets|
  {
    if targets != [] {
      var init := targets[..|targets| - 1];
      var last := targets[|targets| - 1];
      RunStores(s, timeLabel, files, init, post);
      var prev := RunPlaces(s, timeLabel, files, init, post);
      if prev.failure.None? {
        var step := PlaceStep(s, timeLabel, prev.files, last, post);
        StepStores(s, timeLabel, prev.files, last, post);
        CoversKept(s, timeLabel, prev.files, step.files, init, prev.rows);
        if step.row.Ok? {
          var rows := prev.rows + [step.row.value];
          forall k | 0 <= k < |targets|
            ensures targets[k].file in step.files && !step.files[targets[k].file].Null? &&
                    RowFrom(s, timeLabel, targets[k].place, step.files[targets[k].file]) == Ok(rows[k])
          {
            if k < |init| {
              assert targets[k] == init[k];
            }
          }
        }
      }
    }
  }

  /** With every row already backed by the cache, the loop requests nothing and yields the same rows. */
  lemma {:induction false} CoveredRunIsOffline(s: Settings, timeLabel: string, files: map<string, Payload>, targets: seq<Target>, rows: seq<IsochroneRow>, post: Oracle)
    requires s.cacheEnabled && Covers(s, timeLabel, files, targets, rows)
    ensures RunPlaces(s, timeLabel, files, targets, post) == LoopRun(rows, files, [], None)
    decreases |targets|
  {
    if targets != [] {
      var n := |targets| - 1;
      var init := targets[..n];
      assert Covers(s, timeLabel, files, init, rows[..n]) by {
        forall k | 0 <= k < n
          ensures init[k] == targets[k] && rows[..n][k] == rows[k]
        {
        }
      }
      CoveredRunIsOffline(s, timeLabel, files, init, rows[..n], post);
      CacheHitSkipsRequest(s, timeLabel, files, targets[n], post);
      RunPlacesExtend(s, timeLabel, files, targets, n, post);
      assert targets[..n + 1] == targets;
      assert rows[..n] + [rows[n]] == rows;
    }
  }

  /**
   * A second call with the cache a successful first call left behind makes
   * no request at all, whatever the service would answer, and returns the
   * same rows.
   */
  lemma RepeatedGenerateIsOffline(s: Settings, files: map<string, Payload>, places: seq<Place>,
                                  traveltimeId: string, traveltimeKey: string, post: Oracle, post': Oracle)
    requires s.arrival.Valid() && s.cacheEnabled
    requires GenerateAll(s, files, places, traveltimeId, traveltimeKey, post).failure.None?
    ensures var first := GenerateAll(s, files, places, traveltimeId, traveltimeKey, post);
            GenerateAll(s, first.files, places, traveltimeId, traveltimeKey, post') == LoopRun(first.rows, first.files, [], None)
  {
    var timeLabel := ArrivalLabel(s.arrival);
    var targets := TargetsOf(s, places);
    RunStores(s, timeLabel, files, targets, post);
    var first := RunPlaces(s, timeLabel, files, targets, post);
    CoveredRunIsOffline(s, timeLabel, first.files, targets, first.rows, post');
  }

  /** One more location after a run that has not stopped. */
  lemma RunPlacesExtend(s: Settings, timeLabel: string, files: map<string, Payload>, targets: seq<Target>, k: nat, post: Oracle)
    requires k < |targets| && RunPlaces(s, timeLabel, files, targets[..k], post).failure.None?
    ensures var prev := RunPlaces(s, timeLabel, files, targets[..k], post);
            RunPlaces(s, timeLabel, files, targets[..k + 1], post) == Extend(prev, PlaceStep(s, timeLabel, prev.files, targets[k], post))
  {
    assert targets[..k + 1][..k] == targets[..k];
  }

  /** A run stopped before the last location ignores it. */
  lemma StoppedBeforeLast(s: Settings, timeLabel: string, files: map<string, Payload>, targets: seq<Target>, post: Oracle)
    requires targets != [] && RunPlaces(s, timeLabel, files, targets[..|targets| - 1], post).failure.Some?
    ensures RunPlaces(s, timeLabel, files, targets, post) == RunPlaces(s, timeLabel, files, targets[..|targets| - 1], post)
  {
  }

  /** Once the loop has stopped on an exception, later locations change nothing. */
  lemma {:induction false} StoppedRunStaysStopped(s: Settings, timeLabel: string, files: map<string, Payload>, targets: seq<Target>, n: nat, post: Oracle)
    requires n <= |targets| && RunPlaces(s, timeLabel, files, targets[..n], post).failure.Some?
    ensures RunPlaces(s, timeLabel, files, targets, post) == RunPlaces(s, timeLabel, files, targets[..n], post)
    decreases |targets| - n
  {
    if n < |targets| {
      var m := |targets| - 1;
      assert targets[..m][..n] == targets[..n];
      StoppedRunStaysStopped(s, timeLabel, files, targets[..m], n, post);
      StoppedBeforeLast(s, timeLabel, files, targets, post);
    } else {
      assert targets[..n] == targets;
    }
  }

  /**
   * An `IsochroneGenerator`: the location rows, the travel type, the arrival
   * computed by `_calc_arrival_time`, whether a cache directory is set, and
   * the files in that directory.
   */
  class IsochroneGenerator {
    const locations: seq<Place>
    var travel: TravelType
    var arrival: ArrivalTime
    var cacheEnabled: bool
    var files: map<string, Payload>

    constructor(locations: seq<Place>, travel: TravelType, arrival: ArrivalTime, cacheEnabled: bool, files: map<string, Payload>)
      requires arrival.Valid()
      ensures this.locations == locations && this.travel == travel && this.arrival == arrival
      ensures this.cacheEnabled == cacheEnabled && this.files == files
    {
      this.locations := locations;
      this.travel := travel;
      this.arrival := arrival;
      this.cacheEnabled := cacheEnabled;
      this.files := files;
    }

    function SettingsFor(minutes: int, maxRetries: int): Settings
      reads this
    {
      Settings(travel, arrival, cacheEnabled, minutes, maxRetries)
    }

    /**
     * The body of the loop for one location row: the cache lookup, the request
     * on a miss (stored when a cache directory is set) and the row built from
     * the answer.
     */
    method LoadOrFetch(s: Settings, timeLabel: string, place: Place, post: Oracle)
      returns (row: Result<IsochroneRow, IsoFault>, sent: seq<IsoRequest>)
      requires arrival.Valid() && s == SettingsFor(s.minutes, s.maxRetries)
      modifies this
      ensures travel == old(travel) && arrival == old(arrival) && cacheEnabled == old(cacheEnabled)
      ensures PlaceRun(row, files, sent) == PlaceStep(s, timeLabel, old(files), TargetOf(s, place), post)
    {
      var location := NewLocation(place.nameOrId, place.lat, place.lng);
      var isochrone: Payload := Null;
      var file := "";
      if cacheEnabled {
        file := CacheFilename(location.nameOrId, travel, s.minutes, arrival);
        if file in files {
          isochrone := files[file];
        }
      }
      sent := [];
      if isochrone.Null? {
        var request := RequestOf(s, location);
        var outcome, attempts, sleeps := GenerateIsochrone(AttemptsOf(post, request), s.maxRetries);
        sent := [request];
        if outcome.Err? {
          return Err(outcome.error), sent;
        }
        isochrone := outcome.value;
        if cacheEnabled {
          files := files[file := isochrone];
        }
      }
      match isochrone
      case Null =>
        row := Err(NullPayload);
      case NotObject =>
        row := Err(NoGetMethod);
      case Object(results) =>
        var geometry := None;
        if results.Some? && results.value != [] {
          var coordinates := ResponseToShape(results.value[0].shapes);
          geometry := Some(coordinates);
        }
        row := Ok(IsochroneRow(place.nameOrId, travel, s.minutes, timeLabel, geometry));
    }

    /** The `for idx, row in self.locations.iterrows()` loop, stopping at the first exception. */
    method RunLocations(s: Settings, timeLabel: string, post: Oracle)
      returns (rows: seq<IsochroneRow>, fetched: seq<IsoRequest>, failure: Option<IsoFault>)
      requires arrival.Valid() && s == SettingsFor(s.minutes, s.maxRetries)
      modifies this
      ensures travel == old(travel) && arrival == old(arrival) && cacheEnabled == old(cacheEnabled)
      ensures LoopRun(rows, files, fetched, failure) == RunPlaces(s, timeLabel, old(files), TargetsOf(s, locations), post)
    {
      ghost var targets := TargetsOf(s, locations);
      rows := [];
      fetched := [];
      var k := 0;
      while k < |locations|
        invariant 0 <= k <= |locations|
        invariant travel == old(travel) && arrival == old(arrival) && cacheEnabled == old(cacheEnabled)
        invariant RunPlaces(s, timeLabel, old(files), targets[..k], post) == LoopRun(rows, files, fetched, None)
      {
        RunPlacesExtend(s, timeLabel, old(files), targets, k, post);
        assert targets[k] == TargetOf(s, locations[k]);
        ghost var prev := LoopRun(rows, files, fetched, None);
        ghost var step := PlaceStep(s, timeLabel, files, targets[k], post);
        var row, sent := LoadOrFetch(s, timeLabel, locations[k], post);
        assert step == PlaceRun(row, files, sent);
        fetched := fetched + sent;
        if row.Err? {
          assert RunPlaces(s, timeLabel, old(files), targets[..k + 1], post) == LoopRun(rows, files, fetched, Some(row.error));
          StoppedRunStaysStopped(s, timeLabel, old(files), targets, k + 1, post);
          return rows, fetched, Some(row.error);
        }
        rows := rows + [row.value];
        k := k + 1;
        assert RunPlaces(s, timeLabel, old(files), targets[..k], post) == LoopRun(rows, files, fetched, None);
      }
      assert targets[..k] == targets;
      failure := None;
    }

    /**
     * `generate_isochrones(travel_minutes, max_retries)`: one row per
     * location, or the first exception; the cache directory afterwards and
     * the requests sent are those of `GenerateAll`.
     */
    method GenerateIsochrones(minutes: int, maxRetries: int, traveltimeId: string, traveltimeKey: string, post: Oracle)
      returns (result: Result<seq<IsochroneRow>, IsoFault>, fetched: seq<IsoRequest>)
      requires arrival.Valid()
      modifies this
      ensures travel == old(travel) && arrival == old(arrival) && cacheEnabled == old(cacheEnabled)
      ensures var r := GenerateAll(SettingsFor(minutes, maxRetries), old(files), locations, traveltimeId, traveltimeKey, post);
              files == r.files && fetched == r.fetched &&
              result == (if r.failure.Some? then Err(r.failure.value) else Ok(r.rows))
    {
      if traveltimeId == "" || traveltimeKey == "" {
        return Err(MissingApiKeys), [];
      }
      var s := SettingsFor(minutes, maxRetries);
      var rows, failure;
      rows, fetched, failure := RunLocations(s, ArrivalLabel(arrival), post);
      result := if failure.Some? then Err(failure.value) else Ok(rows);
    }
  }
}
