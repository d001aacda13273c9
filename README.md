# ballot-box-analysis, modelled in Dafny

This project models the deterministic core of `ballot-box-analysis`. That library
geocodes voter addresses, fetches travel-time isochrones around ballot boxes, and
counts how many voters live inside at least one of them. The external services
are oracles, passed in as function parameters:

- the census geocoder;
- the Google geocoding API;
- the TravelTime API;
- the point-in-polygon test.

Every property below holds whatever those services answer.

The modules follow the source files:

- `wrappers.dfy` (`Wrappers`) and `sequences.dfy` (`Sequences`): `Option`/`Result`,
  sub-sequences, flattening and `drop_duplicates`.
- `location_io.dfy` (`LocationIO`), from `io.py`:
  - the `TRAVEL_TYPES` and `WEEK_DAYS` enumerations;
  - `sanitize_name_or_id`;
  - the `Location` constructor, which rewrites the identifier.
- `address_id.dfy` (`AddressId`), from `geocode.py`: `_generate_id`. SHA-256 is an
  uninterpreted parameter `hash`, and ids are reasoned about through the
  lower-cased key that is hashed.
- `geocode_cache.dfy` (`GeocodeCache`), from `geocode.py`:
  - `_geocode_single_google` and `_geocode_single` as a decision procedure over
    four cache directories, the census/google success/fail sets;
  - the class `CacheDirs`, whose methods update those directories in place and
    are proved equal to the pure lookups.
- `geocoding.dfy` (`Geocoding`), from `geocode.py`:
  - the batch pipeline of `geocode`: labelling, skipping stored buildings,
    deduplication, batches, per-batch rows with their source tag, and appends to
    the durable table;
  - the left join of `_join_existing`;
  - the class `Geocoder`, whose batch loop is proved against the specification
    function `RunBatches`.
- `arrival.dfy` (`Arrival`), from `isochrone.py`:
  - `_calc_arrival_time`: the next-weekday offset, Python's `int()` on the
    `[0:2]`/`[3:5]` slices, and the `datetime` range checks;
  - `_construct_filename`;
  - the "Weekday at H:MM AM" label of `generate_isochrones`.
- `isochrone_shape.dfy` (`IsochroneShape`), from `isochrone.py`:
  `_isochrone_response_to_shape`. It is a loop building GeoJSON MultiPolygon
  coordinates, laid out as RFC 7946 requires:
  - positions are `[longitude, latitude]` (section 3.1.1);
  - the exterior ring comes first, then the holes (section 3.1.6);
  - there is one polygon per part (section 3.1.7).

  It comes with the inverse reading and both round trips.
- `isochrone_retry.dfy` (`IsochroneRetry`), from `isochrone.py`: the 429 retry loop
  of `_generate_isochrone`. The reply to attempt `k` comes from an oracle `post(k)`
  and the sleeps are recorded as a list of seconds.
- `isochrones.dfy` (`Isochrones`), from `isochrone.py`: `generate_isochrones`.
  - It covers the API-key check, the cache hit/miss per location, the retry call
    on a miss, writing the answer to its file, and the row built from
    `results[0].shapes`.
  - The class `IsochroneGenerator` runs the loop over locations against the
    specification `RunPlaces`.
- `spatial_join.dfy` (`SpatialJoin`), from `join.py`: `SpatialJoiner.summary`. It
  models the group-by-building sum, the nested containment loop with its `break`,
  and the two-row rollup.

Where the code and its written description differ, the model follows the code:

- **The 5 s sleep.** It happens once, before the retry loop, not before every
  attempt.
- **What is retried.** The loop retries whenever the response last bound to `r`
  is a 429. `i < max_retries` always holds inside the loop, so a run in which
  every attempt answers 429 returns the last 429 body. It does not raise.
  - `generate_isochrones` then writes that body to the cache file and builds a
    row without geometry from it.
  - After a 429, a transport failure re-reads the stale 429 and is retried too.
- **Deduplication.** The work list is deduplicated on the whole
  `(building_id, street, city, state, zip)` tuple, not on `building_id` alone.
  Two spellings of one building are both geocoded.
- **Google exceptions.** An exception from the Google fallback is swallowed
  (the lookup yields `None`) after a fresh census no-match. After a cached census
  failure it propagates. An exception that propagates out of a worker re-raises
  from the batch and aborts `geocode`.
- **Empty batches.** A batch in which no item resolved appends `pd.DataFrame([])`,
  a frame with no columns, which DuckDB refuses. The batch aborts `geocode`.
- **The primary key.** A batch whose rows repeat a building id, or reuse a stored
  one, is refused by the key on `building_id`, and nothing is committed. Two
  spellings of one street that differ in case share the building id, and both
  are queued. When they share a batch and the census service answers the first,
  the batch aborts. In the model, which runs a batch's items one after another,
  the second reads that answer from the cache. In the source the two may run at
  the same time in different worker processes, and then both ask the census
  service. Either way both rows carry the shared building id. A later run starts
  from the same table and queues both again.
- **A second `geocode` on one object.** `_join_existing` leaves the merged frame
  in `self.addresses_df`, with `lat` and `lng` already in it. A second call then
  merges again into `lat_x`/`lat_y`, and `self.addresses_df["lng"]` raises
  `KeyError` at `geocode.py:168`, after all the batches ran.

## Model

| member | source | states |
|---|---|---|
| LocationIO.TravelType.Name | src/ballot_box_analysis/io.py:6 | the literal spelling of each travel mode is non-empty and starts with its own letter `d`, `p` or `w` |
| LocationIO.TravelTypeNameInjective | src/ballot_box_analysis/io.py:6 | two modes have names with the same first letter exactly when they are the same mode |
| LocationIO.WeekDay.Index | src/ballot_box_analysis/io.py:7 | the `tm_wday` number of a day name is below 7 (Monday 0 … Sunday 6) |
| LocationIO.WeekDay.Name | src/ballot_box_analysis/io.py:7 | a day name is non-empty and contains no `_` |
| LocationIO.DayOfIndex | src/ballot_box_analysis/io.py:7 | for every number below 7, the day with that `tm_wday` number |
| LocationIO.WeekDayNameInjective | src/ballot_box_analysis/io.py:7 | two days have the same name exactly when they are the same day |
| LocationIO.WeekDayIndexRoundTrip | src/ballot_box_analysis/io.py:7 | reading a day's number back gives the day |
| LocationIO.Sanitize | src/ballot_box_analysis/io.py:27-40 | the result is no longer than the input, uses only `[a-zA-Z0-9-]`, and is an in-order subsequence of the input |
| LocationIO.SanitizeKeepsAllowedOccurrences | src/ballot_box_analysis/io.py:40 | every allowed character survives as often as it occurs in the input; every other character occurs zero times |
| LocationIO.SanitizeConcat | src/ballot_box_analysis/io.py:40 | sanitising a concatenation is concatenating the sanitised parts |
| LocationIO.SanitizeFixesExactlyClean | src/ballot_box_analysis/io.py:40 | a string is returned unchanged if and only if all its characters are allowed |
| LocationIO.SanitizeIdempotent | src/ballot_box_analysis/io.py:40 | sanitising twice equals sanitising once |
| LocationIO.NewLocation | src/ballot_box_analysis/io.py:42-45 | the identifier becomes its sanitised form, which uses allowed characters only, has no `_`, is a subsequence of the given one and is a fixpoint; latitude and longitude are kept |
| AddressId.LowerChar | src/ballot_box_analysis/geocode.py:132 | lower-casing leaves no ASCII capital and changes no other character |
| AddressId.LowerConcat | src/ballot_box_analysis/geocode.py:132 | lower-casing distributes over concatenation |
| AddressId.IdIgnoresCase | src/ballot_box_analysis/geocode.py:122-132 | rows whose fields (and hashed unit) agree up to letter case get the same id, for any hash |
| AddressId.IdIgnoresFieldBoundaries | src/ballot_box_analysis/geocode.py:122-132 | only the concatenation of the four fields matters: rows with the same concatenation and unit get the same id |
| AddressId.FieldBoundaryCollision | src/ballot_box_analysis/geocode.py:122-132 | the rows ("ab", "c", …) and ("a", "bc", …) collide |
| AddressId.IdIgnoresUnit | src/ballot_box_analysis/geocode.py:129-132 | when the unit is not included or there is no unit column, rows differing only in their unit share the id |
| AddressId.AddressIdIsBuildingIdWithoutUnitColumn | src/ballot_box_analysis/geocode.py:129-130 | without a unit column, `address_id` equals `building_id` |
| AddressId.AddressKeyExtendsBuildingKey | src/ballot_box_analysis/geocode.py:129-132 | with a unit column, the address key is the building key followed by the lower-cased `str(unit)` |
| GeocodeCache.GoogleLookup | src/ballot_box_analysis/geocode.py:201-235 | a missing key raises before any cache is read; a success file is returned, a fail file gives `None`, neither makes a request; otherwise exactly one request: "OK" writes only the success entry and returns the body, any other status writes only the fail marker and returns `None`, a raise writes nothing; census directories untouched; no entry removed |
| GeocodeCache.SingleLookup | src/ballot_box_analysis/geocode.py:268-304 | a census success file is returned with no request and no write; a census fail file gives exactly the Google path's result, its exceptions included; on a census miss the census service is asked first and the call never raises: a non-empty answer is cached and returned, a raise gives `None`, an empty answer writes the fail marker and falls back to Google; the census service is asked exactly on a census miss; no entry removed |
| GeocodeCache.ResolvedLookupIsMemoised | src/ballot_box_analysis/geocode.py:268-304 | after a lookup that returned a value, repeating it returns the same value with no request and no cache change, whatever the services answer |
| GeocodeCache.CensusNoMatchIsNotRetried | src/ballot_box_analysis/geocode.py:283-300 | after the census service answers with no candidates, a later lookup of that building never asks the census service again |
| GeocodeCache.GoogleFailureIsPermanent | src/ballot_box_analysis/geocode.py:212-235 | after a non-"OK" Google status, the building resolves to `None` with no request, whatever Google would answer |
| GeocodeCache.CacheDirs.constructor | src/ballot_box_analysis/geocode.py:57-64 | the four directories start with the files they already hold |
| GeocodeCache.CacheDirs.GeocodeSingleGoogle | src/ballot_box_analysis/geocode.py:173-235 | the outcome, the directories afterwards and the requests made are those of `GoogleLookup` on the directories before |
| GeocodeCache.CacheDirs.GeocodeSingle | src/ballot_box_analysis/geocode.py:238-304 | the outcome, the directories afterwards and the requests made are those of `SingleLookup` on the directories before |
| Sequences.DropDuplicates | src/ballot_box_analysis/geocode.py:349-351 | the result holds exactly the elements not already seen, each once, as an in-order subsequence of the input |
| Sequences.DropDuplicatesSnoc | src/ballot_box_analysis/geocode.py:349-351 | one more element at the end is kept, at the end, exactly when it was neither seen nor earlier in the input: the first occurrence is the one kept, in input order |
| Sequences.KeepsFirstOccurrence | src/ballot_box_analysis/geocode.py:349-351 | `[a, b, a]` deduplicates to `[a, b]` |
| Sequences.DropDuplicatesOfDistinct | src/ballot_box_analysis/geocode.py:146-148 | a list without repeats, none of them seen, is returned unchanged |
| Geocoding.UnitsShareBuildingId | src/ballot_box_analysis/geocode.py:332-333 | labelled rows differing only in their unit share `building_id` |
| Geocoding.Remaining | src/ballot_box_analysis/geocode.py:341-350 | every row whose building is not stored is projected into the remaining rows, and every remaining row is such a projection |
| Geocoding.RemainingSnoc | src/ballot_box_analysis/geocode.py:341-350 | the remaining rows are an in-order filter: one more labelled row adds its projection at the end exactly when its building is not stored |
| Geocoding.WorkListSnoc | src/ballot_box_analysis/geocode.py:341-351 | one more labelled row adds its projection at the end of the work list exactly when its building is not stored and the projection is not already listed |
| Geocoding.WorkListIsUnstoredRows | src/ballot_box_analysis/geocode.py:341-351 | the work list holds exactly the projections of the rows whose building is not stored, each once, and none of a stored building |
| Geocoding.AllStoredMeansNoWork | src/ballot_box_analysis/geocode.py:341-351 | when every building is stored the work list is empty |
| Geocoding.CaseVariantsBothQueued | src/ballot_box_analysis/geocode.py:349-351 | two spellings of one street that differ in case share the building id, yet both enter the work list as distinct items |
| Geocoding.Batches | src/ballot_box_analysis/geocode.py:353-354 | the batches concatenate back to the work list in order; each holds 1 to `batch_size` items, every one but the last is full, and there are none exactly when the list is empty |
| Geocoding.AppendKeepsUnique | src/ballot_box_analysis/geocode.py:394 | an append that passes the primary-key check keeps the table's building ids unique |
| Geocoding.BatchCount | src/ballot_box_analysis/geocode.py:353 | the number of batches is the list length divided by the batch size, rounded up |
| Geocoding.ToStored | src/ballot_box_analysis/geocode.py:376-390 | a truthy result gives the item's id and address fields, tagged "google" exactly for a dict result with its coordinates from `results[0]`; only a dict result with an empty `results` list fails (`IndexError`) |
| Geocoding.Kept | src/ballot_box_analysis/geocode.py:391-392 | the positions of the truthy results: increasing, each truthy, every truthy position included |
| Geocoding.BatchRowsOkWhenWellFormed | src/ballot_box_analysis/geocode.py:375-393 | the batch's rows are built without error if and only if no truthy result is a dict with an empty `results` list |
| Geocoding.BatchRowsCount | src/ballot_box_analysis/geocode.py:375-393 | a well-formed batch yields one row per truthy result, so no more rows than items |
| Geocoding.BatchRowAt | src/ballot_box_analysis/geocode.py:375-393 | the k-th row is built from the k-th truthy result and the item at the same position |
| Geocoding.BatchRowsComeFromBatch | src/ballot_box_analysis/geocode.py:375-393 | every row belongs to an item with a truthy result, and is tagged "google" exactly when that result is a dict |
| Geocoding.RunItems | src/ballot_box_analysis/geocode.py:359-373 | one outcome per item, and the caches only grow |
| Geocoding.RunItemsAt | src/ballot_box_analysis/geocode.py:359-373 | outcome `k` is the `_geocode_single` lookup of item `k` on the cache files the items before it left |
| Geocoding.SharedIdLookups | src/ballot_box_analysis/geocode.py:268-304 | of two items with one building id, the census answer for the first is cached and read back for the second: both return it |
| Geocoding.FirstFault | src/ballot_box_analysis/geocode.py:359-373 | there is no fault exactly when every item returned; otherwise the fault is that of the first item that raised |
| Geocoding.BatchStep | src/ballot_box_analysis/geocode.py:353-396 | caches and requests are those of the batch's lookups; the first exception fails the batch, and otherwise a malformed Google body, an empty frame or a key clash does; the batch passes exactly when its rows are built, non-empty and fresh in the key, and then the table is the old table followed by exactly those rows; a failed batch leaves the table as it was; unique ids stay unique |
| Geocoding.BatchStepStoresResolved | src/ballot_box_analysis/geocode.py:375-396 | after a passing batch every item returned, and each resolved item's row, built from its own result, is among the appended rows |
| Geocoding.CensusPairRowsClash | src/ballot_box_analysis/geocode.py:375-394 | two census answers for one building id give two rows with that id, which the key check refuses |
| Geocoding.RunBatches | src/ballot_box_analysis/geocode.py:353-400 | the table is only appended to, by at most one row per work item, each belonging to a work item; no batches change nothing; unique ids stay unique; caches only grow |
| Geocoding.RunBatchesConcat | src/ballot_box_analysis/geocode.py:353-396 | running two lists of batches one after the other is running their concatenation: a failure in the first ends the loop |
| Geocoding.RunBatchesStopsAtFailure | src/ballot_box_analysis/geocode.py:353-396 | a failing batch ends the loop with its error and the table the batches before it left |
| Geocoding.EveryBatchCommitted | src/ballot_box_analysis/geocode.py:353-396 | after a run that raised nothing every batch passed, and the rows each appended are in the final table |
| Geocoding.ResolvedItemIsStored | src/ballot_box_analysis/geocode.py:353-396 | after a run that raised nothing every work item, looked up on the cache files everything before it left, returned, and each resolved one has its row in the final table |
| Geocoding.CaseVariantsAbortBatch | src/ballot_box_analysis/geocode.py:349-396 | two spellings of one street that differ in case, in one batch with a fresh census answer, abort the batch on the primary key |
| Geocoding.Matches | src/ballot_box_analysis/geocode.py:164-165 | exactly the stored geocodes with the given building id |
| Geocoding.UniqueMatches | src/ballot_box_analysis/geocode.py:164-165 | with unique building ids at most one stored geocode matches |
| Geocoding.FirstMatchFound | src/ballot_box_analysis/geocode.py:165 | a building finds a geocode exactly when one with its id is stored, and the one found is such a geocode |
| Geocoding.JoinRowUnique | src/ballot_box_analysis/geocode.py:165 | with unique building ids an address row joins exactly once |
| Geocoding.LeftJoinIsLookup | src/ballot_box_analysis/geocode.py:164-165 | with unique building ids the join keeps the row count and pairs each row, in order, with the geocode its building finds |
| Geocoding.LeftJoinKeepsRows | src/ballot_box_analysis/geocode.py:150-170 | with unique building ids every address row is kept, in order, and gets a point exactly when its building is stored, that building's point |
| Geocoding.StoredGeocodesUnique | src/ballot_box_analysis/geocode.py:146-148 | under the primary key `SELECT DISTINCT` removes nothing and no building id occurs twice among the stored geocodes |
| Geocoding.ExistingIdsAreStored | src/ballot_box_analysis/geocode.py:146-148 | a stored geocode with a building id exists exactly when that id is in the table |
| Geocoding.GeocodeJoinKeepsRows | src/ballot_box_analysis/geocode.py:341-402 | from a table keyed by building id, `geocode` keeps the key, and its join keeps every address row in order, with a point exactly when the building is stored, namely that building's geocode |
| Geocoding.Geocoder.constructor | src/ballot_box_analysis/geocode.py:36-70 | the geocoder holds the hash, the unit-column switch, the address rows, the cache directories and the stored table it was given |
| Geocoding.Geocoder.GeocodeBatch | src/ballot_box_analysis/geocode.py:359-373 | the outcomes, directories and requests of the batch are those of `RunItems` on the directories before |
| Geocoding.Geocoder.ApplyBatch | src/ballot_box_analysis/geocode.py:359-396 | the failure, directories, table and requests are those of `BatchStep` |
| Geocoding.Geocoder.ApplyBatches | src/ballot_box_analysis/geocode.py:353-400 | the failure, directories, table and requests are those of `RunBatches` over the batches |
| Geocoding.Geocoder.Geocode | src/ballot_box_analysis/geocode.py:306-402 | directories, table and requests are those of the batch loop over the planned batches; the result is the first batch error, or the left join of the labelled rows with the final table; a table keyed by building id stays so |
| Geocoding.RepeatedGeocodeIsOffline | src/ballot_box_analysis/geocode.py:341-353 | when every building is stored, `geocode` makes no request and changes neither caches nor table |
| Arrival.WeekdayOf | src/ballot_box_analysis/isochrone.py:125 | `date.weekday()` of an ordinal is below 7 |
| Arrival.DayOffset | src/ballot_box_analysis/isochrone.py:124-125 | the offset lies in 0..6, reaches the target day, is 0 when today is the target, and is the least such offset |
| Arrival.PySlice | src/ballot_box_analysis/isochrone.py:130-131 | a slice is at most `j - i` long, and is `s[i..j]` when `j` is within the string |
| Arrival.Strip | src/ballot_box_analysis/isochrone.py:130-131 | the white space `int()` tolerates (`str.isspace`) is removed from both ends: the result neither starts nor ends with it, and text already stripped is unchanged |
| Arrival.ParseTwoDigits | src/ballot_box_analysis/isochrone.py:130-131 | two ASCII digits parse to their decimal value |
| Arrival.NextWeekday | src/ballot_box_analysis/isochrone.py:124-125 | today plus the offset falls on the target day, and no earlier day from today does |
| Arrival.NextDate | src/ballot_box_analysis/isochrone.py:123-125 | the next date on the target day lies in today … today + 6, is today when today is that day, and no earlier date from today matches |
| Arrival.CalcArrival | src/ballot_box_analysis/isochrone.py:104-135 | a returned arrival is a valid `datetime`, lies on the least date from today with the requested weekday, within a week |
| Arrival.SeparatorIgnored | src/ballot_box_analysis/isochrone.py:130-131 | the character at index 2 is never read: replacing it changes nothing |
| Arrival.ClockStringRead | src/ballot_box_analysis/isochrone.py:126-133 | on an "HH:MM" digit string the call succeeds exactly when the date stays within `date.max`, HH < 24 and MM < 60, and then gives that date at HH:MM |
| Arrival.OneDigitHourRejected | src/ballot_box_analysis/isochrone.py:130 | "9:30" raises, because `int("9:")` fails |
| Arrival.DigitChar | src/ballot_box_analysis/isochrone.py:227 | a digit character reads back as its value |
| Arrival.NatToString | src/ballot_box_analysis/isochrone.py:227 | `str(n)` is a non-empty digit string whose value is `n` |
| Arrival.IntToString | src/ballot_box_analysis/isochrone.py:227 | `int(str(i)) == i`, and the text has no `_` |
| Arrival.IntToStringInjective | src/ballot_box_analysis/isochrone.py:227 | different minutes give different texts |
| Arrival.Pad2 | src/ballot_box_analysis/isochrone.py:225 | two digits whose value is `n` |
| Arrival.HourMinute | src/ballot_box_analysis/isochrone.py:225 | `%H%M` is four characters without `_` |
| Arrival.CacheFilename | src/ballot_box_analysis/isochrone.py:210-228 | a file name ending in ".json" |
| Arrival.FilenameKeysOnWeekday | src/ballot_box_analysis/isochrone.py:223-228 | the date enters the name only through its weekday: a week later the file is the same |
| Arrival.SplitAtSeparator | src/ballot_box_analysis/isochrone.py:227 | two joins at "_-_" with `_`-free first parts are equal only if both parts are |
| Arrival.SplitAtTravelType | src/ballot_box_analysis/isochrone.py:227 | the travel type is recovered from the name that follows the identifier |
| Arrival.FilenameFieldsInjective | src/ballot_box_analysis/isochrone.py:227 | the five `_-_`-joined fields are recovered from the joined text when the name, minutes and day have no `_` |
| Arrival.HourMinuteInjective | src/ballot_box_analysis/isochrone.py:225 | `%H%M` determines the hour and the minute |
| Arrival.CacheFilenameInjective | src/ballot_box_analysis/isochrone.py:223-228 | for sanitised identifiers, equal file names mean equal identifier, travel type, minutes, weekday, hour and minute |
| Arrival.Hour12 | src/ballot_box_analysis/isochrone.py:346 | `%-I` is in 1..12 and agrees with the hour modulo 12 |
| Arrival.ArrivalLabel | src/ballot_box_analysis/isochrone.py:344-351 | the label starts with "<Weekday> at " and ends in "AM" before noon, "PM" from noon on |
| IsochroneShape.PositionOf | src/ballot_box_analysis/isochrone.py:246 | a vertex becomes `[lng, lat]` |
| IsochroneShape.RingOf | src/ballot_box_analysis/isochrone.py:246-247 | a ring keeps its length |
| IsochroneShape.PolygonOf | src/ballot_box_analysis/isochrone.py:246-250 | a polygon has one ring for the shell and one per hole |
| IsochroneShape.MultiPolygonOf | src/ballot_box_analysis/isochrone.py:244-252 | one polygon per shape |
| IsochroneShape.ResponseToShape | src/ballot_box_analysis/isochrone.py:231-253 | the coordinates the loop appends are the MultiPolygon of the shapes, in order |
| IsochroneShape.RingRoundTrip | src/ballot_box_analysis/isochrone.py:246 | a converted ring is well formed and reads back to its vertices |
| IsochroneShape.VerticesRoundTrip | src/ballot_box_analysis/isochrone.py:246 | a well-formed ring is the conversion of the vertices read from it |
| IsochroneShape.PolygonRoundTrip | src/ballot_box_analysis/isochrone.py:246-250 | a polygon reads back to its shell and holes in order |
| IsochroneShape.MultiPolygonRoundTrip | src/ballot_box_analysis/isochrone.py:244-252 | the coordinates are well formed and read back to exactly the input shapes |
| IsochroneShape.ShapesRoundTrip | src/ballot_box_analysis/isochrone.py:244-252 | every well-formed MultiPolygon is the conversion of the shapes read from it |
| IsochroneRetry.RetryLoop | src/ballot_box_analysis/isochrone.py:274-311 | the loop from attempt `i` has made at least `i` attempts and only appends to the sleep log |
| IsochroneRetry.GenerateIsochrone | src/ballot_box_analysis/isochrone.py:255-311 | the `for`/`try`/`break`/`raise` loop returns the outcome, attempt count and sleeps of `Retry` |
| IsochroneRetry.RetryLoopShape | src/ballot_box_analysis/isochrone.py:272-308 | the attempts are bounded by `max_retries`; the sleeps are 5 s then `10 * (k + 2)` per retried attempt; every retried attempt was a 429 or a transport failure after one |
| IsochroneRetry.RetryLoopOutcome | src/ballot_box_analysis/isochrone.py:295-310 | a success is the body of the last attempt; a raised HTTP error is not a 429 and ends the run with no sleep after it |
| IsochroneRetry.RetryBounds | src/ballot_box_analysis/isochrone.py:272-310 | at most `max_retries` POSTs, one 5 s sleep before the first, 20 s after the first retried attempt, and the two facts above for the whole call |
| IsochroneRetry.Waits | src/ballot_box_analysis/isochrone.py:302-304 | the sleep log after `n` retries is 5 s then `10 * (k + 2)` for each `k < n` |
| IsochroneRetry.ChainOfTooManyRequests | src/ballot_box_analysis/isochrone.py:298-304 | a run of 429 answers is retried attempt after attempt, adding one sleep per attempt |
| IsochroneRetry.StopsAtFirstSuccess | src/ballot_box_analysis/isochrone.py:274-296 | after `j` 429 answers a success ends the loop: `j + 1` POSTs, the success body, `j` retry sleeps |
| IsochroneRetry.AllTooManyRequestsReturnsLast | src/ballot_box_analysis/isochrone.py:274-310 | when every attempt answers 429, nothing is raised and the last 429 body is returned after `max_retries` POSTs |
| IsochroneRetry.TooManyRequestsThenSuccess | src/ballot_box_analysis/isochrone.py:272-304 | with four retries, a 429 then a 200 makes two POSTs and sleeps 5 s then 20 s |
| IsochroneRetry.OtherHttpErrorRaisesAtOnce | src/ballot_box_analysis/isochrone.py:306-308 | a non-429 HTTP error on the first attempt is raised after one POST, with no retry |
| IsochroneRetry.BoundStaysBound | src/ballot_box_analysis/isochrone.py:275-301 | once a response is bound to `r`, reading `r` never fails |
| IsochroneRetry.UnboundExactly | src/ballot_box_analysis/isochrone.py:274-310 | `r` is read unbound exactly when `max_retries <= 0` or the first POST fails in transport |
| Isochrones.RequestOf | src/ballot_box_analysis/isochrone.py:280-290 | the search is sent under the location's (already sanitised) identifier, with the travel time in seconds |
| Isochrones.RowFrom | src/ballot_box_analysis/isochrone.py:373-376 | a `null` answer, or one that is not an object, fails as `.get` raises; otherwise the row has the location's name, the call's columns, and a geometry exactly when `results` is non-empty, namely the MultiPolygon of `results[0].shapes` |
| Isochrones.Fetch | src/ballot_box_analysis/isochrone.py:366-371 | a miss sends exactly the location's request; without a cache directory nothing is written; a row carries the call's columns |
| Isochrones.PlaceStep | src/ballot_box_analysis/isochrone.py:355-376 | one location sends at most one request; without a cache directory nothing is written; a row carries the call's columns |
| Isochrones.RunPlaces | src/ballot_box_analysis/isochrone.py:354-376 | at most one row and one request per location; one row per location when nothing raised; without a cache directory nothing is written |
| Isochrones.GenerateAll | src/ballot_box_analysis/isochrone.py:313-376 | without both API keys the call raises before any cache or request |
| Isochrones.RowsFollowTargets | src/ballot_box_analysis/isochrone.py:348-376 | the k-th row belongs to the k-th location and carries the travel type, minutes and arrival label |
| Isochrones.OneRowPerPlace | src/ballot_box_analysis/isochrone.py:348-376 | a call that raises nothing returns one row per location, in order, with its own name, the travel type, the minutes and the arrival label |
| Isochrones.CacheHitSkipsRequest | src/ballot_box_analysis/isochrone.py:358-366 | a stored non-null file is used as is: no request, no write |
| Isochrones.CacheMissFetchesAndStores | src/ballot_box_analysis/isochrone.py:366-371 | on a miss one request is made; its error is raised with nothing written; its answer, whatever it is, is written to the file when a cache directory is set, and the row is built from it |
| Isochrones.SharedFileExactlyWhenSameId | src/ballot_box_analysis/isochrone.py:355-359 | two locations share a cache file exactly when their identifiers sanitise to the same string |
| Isochrones.NoCacheFetchesEveryTarget | src/ballot_box_analysis/isochrone.py:358-368 | without a cache directory a run that raises nothing requests every location, in order |
| Isochrones.StepStores | src/ballot_box_analysis/isochrone.py:358-371 | with a cache directory a step keeps every stored non-null answer and leaves its row's answer stored |
| Isochrones.RunStores | src/ballot_box_analysis/isochrone.py:354-376 | with a cache directory, after a run that raises nothing every row is backed by a stored answer |
| Isochrones.CoveredRunIsOffline | src/ballot_box_analysis/isochrone.py:358-366 | when every location's answer is stored, the loop requests nothing and returns the stored rows |
| Isochrones.RepeatedGenerateIsOffline | src/ballot_box_analysis/isochrone.py:313-382 | a second call with the cache a successful first call left makes no request, whatever the service would answer, and returns the same rows |
| Isochrones.StoppedRunStaysStopped | src/ballot_box_analysis/isochrone.py:354-368 | an exception ends the loop: later locations change nothing |
| Isochrones.IsochroneGenerator.constructor | src/ballot_box_analysis/isochrone.py:32-48 | the generator holds the locations, the travel type, the computed arrival and the cache directory it was given |
| Isochrones.IsochroneGenerator.LoadOrFetch | src/ballot_box_analysis/isochrone.py:355-376 | the row, the cache afterwards and the requests of one location are those of `PlaceStep` |
| Isochrones.IsochroneGenerator.RunLocations | src/ballot_box_analysis/isochrone.py:354-376 | the rows, cache, requests and exception of the loop are those of `RunPlaces` over the locations |
| Isochrones.IsochroneGenerator.GenerateIsochrones | src/ballot_box_analysis/isochrone.py:313-382 | the result, the cache afterwards and the requests are those of `GenerateAll` |
| SpatialJoin.AddRow | src/ballot_box_analysis/join.py:44-48 | adding a row to the groups adds its count to their total |
| SpatialJoin.GroupByBuilding | src/ballot_box_analysis/join.py:44-48 | the grouped counts sum to the voter total |
| SpatialJoin.GroupByBuildingGroups | src/ballot_box_analysis/join.py:44-48 | one group per (building id, point) key that occurs, no key twice, each holding the sum of its rows' counts |
| SpatialJoin.Rollup | src/ballot_box_analysis/join.py:61-67 | two rows, `within_any` True then False, whose counts add up to the total |
| SpatialJoin.Summary | src/ballot_box_analysis/join.py:27-69 | the nested loop with `break` returns the rollup of the covered total of the buildings and the voter total |
| SpatialJoin.GroupingPreservesCoveredCount | src/ballot_box_analysis/join.py:44-59 | the covered total over buildings equals the covered count over the voter rows themselves |
| SpatialJoin.NoIsochronesCoverNothing | src/ballot_box_analysis/join.py:50-59 | with no isochrones the covered total is 0 |
| SpatialJoin.CoveredBounds | src/ballot_box_analysis/join.py:50-61 | with non-negative counts the covered total lies between 0 and the buildings' total |
| SpatialJoin.CoveredDependsOnlyOnIsochroneSet | src/ballot_box_analysis/join.py:54-59 | the covered total depends only on the set of isochrones: listing one twice or in another order changes nothing, so a building inside several counts once |
| SpatialJoin.SummaryMeaning | src/ballot_box_analysis/join.py:41-67 | "within any" is the count of voters inside some isochrone, the two counts sum to the total, and with no isochrones all voters are outside |
| SpatialJoin.SummaryBounds | src/ballot_box_analysis/join.py:41-61 | with non-negative counts, `0 <= within_any_true <= total` |

## Left out

- `map.py`: Kepler.gl configuration and a county download. There is no logic to verify.
- I/O and services are parameters:
  - SHA-256 is an uninterpreted function;
  - the census, Google and TravelTime services are oracles;
  - the clock (`date.today()`) is an ordinal argument;
  - the environment variables are string arguments, where an empty string means unset.
- JSON files are modelled as the values they hold. `json.dump` then `json.load` is the identity.
- Geocoding.RunItems and Geocoding.BatchStep: the batch's `ProcessPoolExecutor` is rendered as a loop over the items in order, sharing the cache directories, in which every item runs and the first exception is then re-raised. In the source:
  - the items run at the same time in `processes` worker processes (50 by default), and a lookup may miss a cache file that an earlier item has not yet written;
  - `map`'s iterator re-raises the first exception in item order and the executor then cancels the items not yet dispatched, so those never run. Items already running finish.

  So after a failing batch the model's caches and request log may hold lookups the source never made. After a passing batch every item has run in both, but the model's order of cache writes and requests is one schedule among those the source allows.
- Logging, `tqdm` and `time.sleep`: the sleep durations are recorded and nothing else is.
- DuckDB:
  - the durable table is an append-only sequence of rows, and `created_at` is not modelled;
  - DuckDB refusing a frame with no columns is an assumption about DuckDB, not something `geocode.py` shows. It is the `EmptyFrame` error;
  - the primary key on `building_id` (`geocode.py:97-98`) is the `DuplicateKey` error. The `CREATE TABLE` is not modelled, so the lemmas assume the starting table is keyed.
- Geocoding.Geocoder.Geocode: the reassignment of `self.addresses_df`, first with the id columns and then with the merged frame, is not kept as state. The labelled rows and the joined rows are returned instead, and the column reordering is not modelled. So a second call on the same geocoder succeeds in the model, where the source raises `KeyError` at `geocode.py:168`.
- Address fields are strings. The `TypeError` that `"".join` and `" ".join` raise on a NaN or numeric cell (`geocode.py:132`, `geocode.py:272-277`) is not modelled.
- Geocoding.Geocoder.Geocode: requires `batch_size > 0`. `range` with step 0 raises, and a negative step gives no batches.
- Google bodies and census candidates carry only the fields the core reads: `status`, `results[0].geometry.location`, and `coordinates.x`/`y`.
- GeocodeCache.GoogleLookup: a body that is not JSON is one kind of raise. A body without `status` gets `None` from `.get`, so it writes the fail marker and returns `None`. The model covers it with any status other than "OK", which is the only status distinguished.
- `str.lower()` is modelled on ASCII letters only. There is no Unicode case mapping.
- Arrival.CalcArrival:
  - the time zone, `isoformat()` and the `dateutil` parse back are not modelled, so the arrival is a date ordinal with hour and minute;
  - `int()` is modelled on ASCII digits only. It strips the white space `str.isspace` accepts, including the separators `\x1c`–`\x1f` and the Unicode spaces. Underscores cannot occur in a two-character slice.
- Arrival.FilenameKeysOnWeekday and Arrival.CacheFilename: `strftime` is modelled for the C locale only.
- IsochroneRetry.RetryLoop:
  - a body that is not JSON is not modelled. A JSON body that is not an object, a list for instance, is kept and makes `isochrone.get` raise at `isochrone.py:373`;
  - an absent `results` key is `None`. An absent `shapes` key in a result is not modelled.
- Isochrones.GenerateAll:
  - the locations' index labels are assumed unique, so row `k` gets the geometry of location `k`. The source writes each geometry with `isochrones.at[idx, "isochrone"]` (`isochrone.py:376`), and with a repeated label that write reaches every row with the label, so a later location overwrites an earlier one's shape. Labels are not modelled;
  - the isochrone frame's other columns and its point geometry are not modelled;
  - each result row keeps the location's original name-or-id;
  - the geometry is the GeoJSON coordinates, not a shapely object.
- The setters `set_travel_type`, `set_arrival_time` and `set_cache_dir`, and the constructors `from_pandas` and `from_geopandas`, are not modelled. They only assign their arguments or fail on a missing column.
- Isochrones.IsochroneGenerator.GenerateIsochrones: like `GenerateAll`, it gives each location its own row and geometry. A frame whose index repeats a label, as `pd.concat` without `ignore_index` builds, is not modelled. In the source the label-keyed `.at` write at `isochrone.py:376` gives every row with that label the last geometry written for it.
- Isochrones.IsochroneGenerator.RunLocations: like `RunPlaces`, it assumes unique index labels, for the same reason.
- Isochrones.IsochroneGenerator.constructor takes the arrival already computed by `CalcArrival`.
- The cache directory is switched on or off by a flag, because any `Path` is truthy. The files are one map from file name to stored answer.
- SpatialJoin.Summary:
  - the `share_voters` column is not computed, because it is floating-point division;
  - groups are in order of first appearance, not in the sorted order of `groupby`;
  - dropping NaN keys is not modelled;
  - points and isochrones are abstract, and containment is the parameter `within`.
