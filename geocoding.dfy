/**
 * The batch orchestrator `Geocoder.geocode` and the final left join
 * `Geocoder._join_existing`. The durable table is an append-only sequence of
 * stored rows; the process pool is a sequential map over each batch.
 */
module Geocoding {

  import opened Wrappers
  import opened Sequences
  import opened AddressId
  import opened GeocodeCache

  /** An address row with its two identifiers, as `geocode` labels it. */
  datatype LabelledRow = LabelledRow(addressId: string, buildingId: string, row: AddressRow)

  /** `address_id` (with the unit) and `building_id` (without it) for every row, in order. */
  function Label(hash: string -> string, hasUnitCol: bool, rows: seq<AddressRow>): seq<LabelledRow> {
    seq(|rows|, i requires 0 <= i < |rows| =>
      LabelledRow(GenerateId(hash, rows[i], true, hasUnitCol), GenerateId(hash, rows[i], false, hasUnitCol), rows[i]))
  }

  /** Rows that differ only in their unit get the same building id. */
  lemma UnitsShareBuildingId(hash: string -> string, hasUnitCol: bool, rows: seq<AddressRow>, i: nat, j: nat)
    requires i < |rows| && j < |rows|
    requires rows[i].street == rows[j].street && rows[i].city == rows[j].city
    requires rows[i].state == rows[j].state && rows[i].zip == rows[j].zip
    ensures Label(hash, hasUnitCol, rows)[i].buildingId == Label(hash, hasUnitCol, rows)[j].buildingId
  {
    IdIgnoresUnit(hash, rows[i], rows[j], false, hasUnitCol);
  }

  /** The `[building_id, street, city, state, zip]` projection of a labelled row. */
  function Project(l: LabelledRow): WorkItem {
    WorkItem(l.buildingId, l.row.street, l.row.city, l.row.state, l.row.zip)
  }

  /** The projected rows whose building id is not already stored (`~isin`), in order. */
  function Remaining(ls: seq<LabelledRow>, stored: set<string>): (r: seq<WorkItem>)
    ensures forall i :: 0 <= i < |ls| && ls[i].buildingId !in stored ==> Project(ls[i]) in r
    ensures forall w :: w in r ==> exists i :: 0 <= i < |ls| && ls[i].buildingId !in stored && Project(ls[i]) == w
    decreases |ls|
  {
    if ls == [] then []
    else
      var rest := Remaining(ls[1..], stored);
      assert forall i :: 1 <= i < |ls| ==> ls[i] == ls[1..][i - 1];
      assert forall w :: w in rest ==> exists i :: 0 <= i < |ls| && ls[i].buildingId !in stored && Project(ls[i]) == w by {
        forall w | w in rest
          ensures exists i :: 0 <= i < |ls| && ls[i].buildingId !in stored && Project(ls[i]) == w
        {
          var i :| 0 <= i < |ls[1..]| && ls[1..][i].buildingId !in stored && Project(ls[1..][i]) == w;
          assert ls[i + 1] == ls[1..][i];
        }
      }
      if ls[0].buildingId in stored then rest else [Project(ls[0])] + rest
  }

  /**
   * The in-order filter behind `~isin`: a further row adds its projection at
   * the end exactly when its building is not stored.
   */
  lemma {:induction false} RemainingSnoc(ls: seq<LabelledRow>, l: LabelledRow, stored: set<string>)
    ensures Remaining(ls + [l], stored) == Remaining(ls, stored) + (if l.buildingId in stored then [] else [Project(l)])
    decreases |ls|
  {
    if ls == [] {
      assert [] + [l] == [l];
    } else {
      assert (ls + [l])[0] == ls[0] && (ls + [l])[1..] == ls[1..] + [l];
      RemainingSnoc(ls[1..], l, stored);
    }
  }

  /**
   * The work list in order: a further row enters it, at the end, exactly when
   * its building is not stored and its projected tuple is not queued yet.
   */
  lemma WorkListSnoc(ls: seq<LabelledRow>, l: LabelledRow, stored: set<string>)
    ensures WorkList(ls + [l], stored) ==
            WorkList(ls, stored) + (if l.buildingId in stored || Project(l) in WorkList(ls, stored) then [] else [Project(l)])
  {
    RemainingSnoc(ls, l, stored);
    var rest := Remaining(ls, stored);
    if l.buildingId !in stored {
      DropDuplicatesSnoc(rest, Project(l), {});
    } else {
      assert rest + [] == rest;
    }
  }

  /** The work list of `geocode`: the remaining rows, deduplicated on the whole projected tuple. */
  function WorkList(ls: seq<LabelledRow>, stored: set<string>): seq<WorkItem> {
    DropDuplicates(Remaining(ls, stored), {})
  }

  /**
   * The work list holds exactly the projections of the rows whose building is
   * not stored yet, each once.
   */
  lemma WorkListIsUnstoredRows(ls: seq<LabelledRow>, stored: set<string>)
    ensures forall i :: 0 <= i < |ls| && ls[i].buildingId !in stored ==> Project(ls[i]) in WorkList(ls, stored)
    ensures forall w :: w in WorkList(ls, stored) ==>
              exists i :: 0 <= i < |ls| && ls[i].buildingId !in stored && Project(ls[i]) == w
    ensures forall w :: w in WorkList(ls, stored) ==> w.buildingId !in stored
    ensures Distinct(WorkList(ls, stored))
  {
  }

  /** When every building is stored already, there is nothing to geocode. */
  lemma AllStoredMeansNoWork(ls: seq<LabelledRow>, stored: set<string>)
    requires forall i :: 0 <= i < |ls| ==> ls[i].buildingId in stored
    ensures WorkList(ls, stored) == []
  {
  }

  /**
   * Deduplication is on the whole tuple, not on the building id: two spellings
   * of one building (differing only in letter case) both enter the work list.
   */
  lemma CaseVariantsBothQueued(hash: string -> string, hasUnitCol: bool, r1: AddressRow, r2: AddressRow, stored: set<string>)
    requires SameUpToCase(r1.street, r2.street) && r1.street != r2.street
    requires r1.city == r2.city && r1.state == r2.state && r1.zip == r2.zip
    requires GenerateId(hash, r1, false, hasUnitCol) !in stored
    ensures var ls := Label(hash, hasUnitCol, [r1, r2]);
            && ls[0].buildingId == ls[1].buildingId
            && Project(ls[0]) in WorkList(ls, stored) && Project(ls[1]) in WorkList(ls, stored)
            && Project(ls[0]) != Project(ls[1])
  {
    IdIgnoresCase(hash, r1, r2, false, hasUnitCol);
    var ls := Label(hash, hasUnitCol, [r1, r2]);
    WorkListIsUnstoredRows(ls, stored);
    assert ls[1].buildingId !in stored && Project(ls[1]) == Project(ls[1]);
  }

  /**
   * `range(0, n, size)` with `iloc[start : start + size]`: consecutive chunks
   * of at most `size` elements, every chunk but the last one full.
   */
  function Batches<T>(s: seq<T>, size: nat): (bs: seq<seq<T>>)
    requires size > 0
    ensures Flatten(bs) == s
    ensures forall i :: 0 <= i < |bs| ==> 0 < |bs[i]| <= size
    ensures forall i :: 0 <= i < |bs| - 1 ==> |bs[i]| == size
    ensures |s| == 0 <==> |bs| == 0
    decreases |s|
  {
    if s == [] then []
    else if |s| <= size then
      assert Flatten([s]) == s + [];
      [s]
    else
      var rest := Batches(s[size..], size);
      assert s == s[..size] + s[size..];
      [s[..size]] + rest
  }

  /** The number of batches is the work-list length divided by the batch size, rounded up. */
  lemma {:induction false} BatchCount<T>(s: seq<T>, size: nat)
    requires size > 0
    ensures |Batches(s, size)| * size >= |s|
    ensures |Batches(s, size)| > 0 ==> (|Batches(s, size)| - 1) * size < |s|
    decreases |s|
  {
    if |s| > size {
      var rest := s[size..];
      BatchCount(rest, size);
      var n := |Batches(rest, size)|;
      assert |Batches(s, size)| == n + 1;
      assert n > 0;
      MulSucc(n - 1, size);
      MulSucc(n, size);
    }
  }

  lemma MulSucc(n: int, size: int)
    ensures (n + 1) * size == n * size + size
  {
  }

  /** Where a stored coordinate came from: the `geocoding_source` column. */
  datatype Source = Census | Google {
    function Name(): string {
      match this
      case Census => "census"
      case Google => "google"
    }
  }

  /** A row of the durable geocode table (`created_at` is not modelled). */
  datatype StoredRow = StoredRow(buildingId: string, street: string, city: string, state: string, zip: string,
                                 lat: real, lng: real, source: Source)

  /**
   * What aborts a batch: a worker's exception; a Google body with an empty
   * `results` list (`IndexError`); appending a frame without columns, which
   * is what `pd.DataFrame([])` gives when no item resolved (DuckDB refuses to
   * scan a frame with no column); or a row whose `building_id` is already in
   * the table or twice in the batch (the primary key).
   */
  datatype BatchError = WorkerRaised(fault: Fault) | MalformedPayload | EmptyFrame | DuplicateKey

  /** No building id occurs twice among the rows: what the primary key keeps true of the table. */
  predicate UniqueIds(rows: seq<StoredRow>) {
    forall i, j :: 0 <= i < j < |rows| ==> rows[i].buildingId != rows[j].buildingId
  }

  /** The set of building ids already in the durable table. */
  function StoredIds(table: seq<StoredRow>): set<string> {
    set r | r in table :: r.buildingId
  }

  /** The primary-key check of an append: new ids, none of them twice. */
  predicate FreshKeys(table: seq<StoredRow>, rows: seq<StoredRow>) {
    UniqueIds(rows) && forall k :: 0 <= k < |rows| ==> rows[k].buildingId !in StoredIds(table)
  }

  /** An append that passes the key check keeps the table's ids unique. */
  lemma AppendKeepsUnique(table: seq<StoredRow>, rows: seq<StoredRow>)
    requires UniqueIds(table) && FreshKeys(table, rows)
    ensures UniqueIds(table + rows)
  {
    var t := table + rows;
    forall i, j | 0 <= i < j < |t|
      ensures t[i].buildingId != t[j].buildingId
    {
      if j >= |table| {
        assert t[j] == rows[j - |table|];
        if i < |table| {
          assert t[i] == table[i] && table[i] in table;
        } else {
          assert t[i] == rows[i - |table|];
        }
      }
    }
  }

  /** Python truthiness of a lookup result: `None` and an empty list are false, a dict is true. */
  predicate Truthy(r: GeoResult) {
    match r
    case NoResult => false
    case CensusResult(m) => |m| > 0
    case GoogleResult(_) => true
  }

  /**
   * The row built for one resolved item: a dict result is tagged "google" and
   * read from `results[0].geometry.location`, a list result is tagged "census"
   * and read from `r[0].coordinates` (`y` the latitude, `x` the longitude).
   */
  function ToStored(w: WorkItem, r: GeoResult): (s: Result<StoredRow, BatchError>)
    requires Truthy(r)
    ensures s.Err? <==> r.GoogleResult? && r.body.results == []
    ensures s.Ok? ==> && s.value.buildingId == w.buildingId && s.value.street == w.street
                      && s.value.city == w.city && s.value.state == w.state && s.value.zip == w.zip
    ensures s.Ok? ==> (s.value.source == Google <==> r.GoogleResult?)
    ensures s.Ok? && r.GoogleResult? ==> s.value.lat == r.body.results[0].lat && s.value.lng == r.body.results[0].lng
    ensures s.Ok? && r.CensusResult? ==> s.value.lat == r.matches[0].y && s.value.lng == r.matches[0].x
  {
    match r
    case CensusResult(m) => Ok(StoredRow(w.buildingId, w.street, w.city, w.state, w.zip, m[0].y, m[0].x, Census))
    case GoogleResult(b) =>
      if b.results == [] then Err(MalformedPayload)
      else Ok(StoredRow(w.buildingId, w.street, w.city, w.state, w.zip, b.results[0].lat, b.results[0].lng, Google))
  }

  /** The positions of the truthy results, in increasing order. */
  function Kept(results: seq<GeoResult>): (ks: seq<nat>)
    ensures forall k :: 0 <= k < |ks| ==> ks[k] < |results| && Truthy(results[ks[k]])
    ensures forall k, l :: 0 <= k < l < |ks| ==> ks[k] < ks[l]
    ensures forall i :: 0 <= i < |results| && Truthy(results[i]) ==> i in ks
    ensures |ks| <= |results|
    decreases |results|
  {
    if results == [] then []
    else
      var n := |results| - 1;
      var prev := Kept(results[..n]);
      if Truthy(results[n]) then prev + [n] else prev
  }

  /**
   * The rows `geocode` appends for one batch: results and items paired by
   * position, falsy results dropped; any malformed Google body aborts.
   */
  function BatchRows(batch: seq<WorkItem>, results: seq<GeoResult>): (r: Result<seq<StoredRow>, BatchError>)
    requires |results| == |batch|
    decreases |batch|
  {
    if batch == [] then Ok([])
    else
      var n := |batch| - 1;
      var prev := BatchRows(batch[..n], results[..n]);
      if prev.Err? then prev
      else if !Truthy(results[n]) then prev
      else
        var s := ToStored(batch[n], results[n]);
        if s.Err? then Err(s.error) else Ok(prev.value + [s.value])
  }

  /** No resolved item of the batch carries a Google body with an empty `results` list. */
  predicate WellFormed(batch: seq<WorkItem>, results: seq<GeoResult>)
    requires |results| == |batch|
  {
    forall i :: 0 <= i < |batch| && Truthy(results[i]) ==> ToStored(batch[i], results[i]).Ok?
  }

  /** The batch yields its rows exactly when it is well formed. */
  lemma {:induction false} BatchRowsOkWhenWellFormed(batch: seq<WorkItem>, results: seq<GeoResult>)
    requires |results| == |batch|
    ensures BatchRows(batch, results).Ok? <==> WellFormed(batch, results)
    decreases |batch|
  {
    if batch != [] {
      var n := |batch| - 1;
      var b', r' := batch[..n], results[..n];
      BatchRowsOkWhenWellFormed(b', r');
      assert forall i :: 0 <= i < n ==> b'[i] == batch[i] && r'[i] == results[i];
      assert WellFormed(batch, results) <==> WellFormed(b', r') && (Truthy(results[n]) ==> ToStored(batch[n], results[n]).Ok?);
    }
  }

  /** A well-formed batch yields one row per truthy result. */
  lemma {:induction false} BatchRowsCount(batch: seq<WorkItem>, results: seq<GeoResult>)
    requires |results| == |batch|
    requires WellFormed(batch, results)
    ensures BatchRows(batch, results).Ok?
    ensures |BatchRows(batch, results).value| == |Kept(results)| <= |batch|
    decreases |batch|
  {
    BatchRowsOkWhenWellFormed(batch, results);
    if batch != [] {
      var n := |batch| - 1;
      var b', r' := batch[..n], results[..n];
      assert forall i :: 0 <= i < n ==> b'[i] == batch[i] && r'[i] == results[i];
      assert WellFormed(b', r');
      BatchRowsCount(b', r');
      var prev := BatchRows(b', r');
      assert BatchRows(batch, results) ==
             if Truthy(results[n]) then Ok(prev.value + [ToStored(batch[n], results[n]).value]) else prev;
      assert Kept(results) == if Truthy(results[n]) then Kept(r') + [n] else Kept(r');
    }
  }

  /** The `k`-th row of a well-formed batch is built from its `k`-th truthy result and the item beside it. */
  lemma {:induction false} BatchRowAt(batch: seq<WorkItem>, results: seq<GeoResult>, k: nat)
    requires |results| == |batch|
    requires WellFormed(batch, results)
    requires k < |Kept(results)|
    ensures BatchRows(batch, results).Ok? && k < |BatchRows(batch, results).value|
    ensures BatchRows(batch, results).value[k] == ToStored(batch[Kept(results)[k]], results[Kept(results)[k]]).value
    decreases |batch|
  {
    BatchRowsCount(batch, results);
    var n := |batch| - 1;
    var b', r' := batch[..n], results[..n];
    assert forall i :: 0 <= i < n ==> b'[i] == batch[i] && r'[i] == results[i];
    BatchRowsCount(b', r');
    var ks := Kept(r');
    if k < |ks| {
      BatchRowAt(b', r', k);
      assert Kept(results)[k] == ks[k];
      assert BatchRows(batch, results).value[k] == BatchRows(b', r').value[k];
    } else {
      assert Kept(results) == ks + [n];
    }
  }

  /** Every appended row belongs to an item of its batch, and the Google tag marks exactly the dict results. */
  lemma BatchRowsComeFromBatch(batch: seq<WorkItem>, results: seq<GeoResult>, k: nat)
    requires |results| == |batch|
    requires BatchRows(batch, results).Ok? && k < |BatchRows(batch, results).value|
    ensures var row := BatchRows(batch, results).value[k];
            exists i :: 0 <= i < |batch| && Truthy(results[i]) && row.buildingId == batch[i].buildingId
                        && (row.source == Google <==> results[i].GoogleResult?)
  {
    BatchRowsOkWhenWellFormed(batch, results);
    BatchRowsCount(batch, results);
    BatchRowAt(batch, results, k);
    var i := Kept(results)[k];
    assert Truthy(results[i]);
  }

  /** The state of a batch run over its first items: their outcomes, the caches and the requests made. */
  datatype BatchRun = BatchRun(outcomes: seq<Outcome>, cache: CacheState, requests: seq<Request>)

  /**
   * `executor.map(self._geocode_single, rows)` rendered in order, one item at
   * a time: each lookup sees the cache files the earlier ones wrote. The
   * source runs the items in parallel worker processes. The census and Google services are
   * oracles from the one-line address to their reply.
   */
  function RunItems(c: CacheState, items: seq<WorkItem>, apiKey: string,
                    census: string -> CensusReply, google: string -> GoogleReply): (r: BatchRun)
    ensures |r.outcomes| == |items|
    ensures Grows(c, r.cache)
    decreases |items|
  {
    if items == [] then BatchRun([], c, [])
    else
      var n := |items| - 1;
      var prev := RunItems(c, items[..n], apiKey, census, google);
      var w := items[n];
      var s := SingleLookup(prev.cache, w, apiKey, census(OneLineAddress(w)), google(OneLineAddress(w)));
      BatchRun(prev.outcomes + [s.outcome], s.cache, prev.requests + s.requests)
  }

  /** The first exception among a batch's outcomes, which `list(executor.map(...))` re-raises. */
  function FirstFault(os: seq<Outcome>): (f: Option<Fault>)
    ensures f.None? <==> forall i :: 0 <= i < |os| ==> os[i].Returned?
    ensures f.Some? ==> exists i :: 0 <= i < |os| && os[i] == Raised(f.value) && forall j :: 0 <= j < i ==> os[j].Returned?
    decreases |os|
  {
    if os == [] then None
    else if os[0].Raised? then Some(os[0].fault)
    else
      var f := FirstFault(os[1..]);
      if f.Some? then
        var i :| 0 <= i < |os[1..]| && os[1..][i] == Raised(f.value) && forall j :: 0 <= j < i ==> os[1..][j].Returned?;
        assert os[i + 1] == Raised(f.value);
        assert forall j :: 1 <= j < i + 1 ==> os[j] == os[1..][j - 1];
        f
      else f
  }

  /** The returned values of a batch in which nothing raised. */
  function Results(os: seq<Outcome>): (rs: seq<GeoResult>)
    requires forall i :: 0 <= i < |os| ==> os[i].Returned?
    ensures |rs| == |os| && forall i :: 0 <= i < |os| ==> rs[i] == os[i].result
  {
    seq(|os|, i requires 0 <= i < |os| => os[i].result)
  }

  /** The state of `geocode` between batches, and the error that ended it early, if any. */
  datatype Run = Run(cache: CacheState, table: seq<StoredRow>, requests: seq<Request>, failure: Option<BatchError>)

  /**
   * One iteration of the batch loop: look up every item, then append and
   * commit the resolved rows. Under the in-order rendering of the executor
   * every item is looked up even when one raises (the source cancels the
   * items not yet dispatched); the first exception, a malformed Google body,
   * an empty frame or a key clash leaves the table as it was.
   */
  function BatchStep(c: CacheState, table: seq<StoredRow>, batch: seq<WorkItem>, apiKey: string,
                     census: string -> CensusReply, google: string -> GoogleReply): (r: Run)
    ensures var items := RunItems(c, batch, apiKey, census, google);
            r.cache == items.cache && r.requests == items.requests
    ensures var items := RunItems(c, batch, apiKey, census, google);
            FirstFault(items.outcomes).Some? ==> r.failure == Some(WorkerRaised(FirstFault(items.outcomes).value))
    ensures var items := RunItems(c, batch, apiKey, census, google);
            FirstFault(items.outcomes).None? ==>
              var rows := BatchRows(batch, Results(items.outcomes));
              && (rows.Err? ==> r.failure == Some(rows.error))
              && (rows.Ok? && rows.value == [] ==> r.failure == Some(EmptyFrame))
              && (rows.Ok? && rows.value != [] && !FreshKeys(table, rows.value) ==> r.failure == Some(DuplicateKey))
              && (r.failure.None? <==> rows.Ok? && rows.value != [] && FreshKeys(table, rows.value))
              && (r.failure.None? ==> r.table == table + rows.value)
    ensures r.failure.Some? ==> r.table == table
    ensures r.failure.None? ==> && table <= r.table && |r.table| - |table| <= |batch|
                                && forall k :: |table| <= k < |r.table| ==>
                                     exists i :: 0 <= i < |batch| && r.table[k].buildingId == batch[i].buildingId
    ensures UniqueIds(table) ==> UniqueIds(r.table)
    ensures Grows(c, r.cache)
  {
    var br := RunItems(c, batch, apiKey, census, google);
    var fault := FirstFault(br.outcomes);
    if fault.Some? then Run(br.cache, table, br.requests, Some(WorkerRaised(fault.value)))
    else
      var results := Results(br.outcomes);
      var rows := BatchRows(batch, results);
      if rows.Err? then Run(br.cache, table, br.requests, Some(rows.error))
      else if rows.value == [] then Run(br.cache, table, br.requests, Some(EmptyFrame))
      else if !FreshKeys(table, rows.value) then Run(br.cache, table, br.requests, Some(DuplicateKey))
      else
        BatchRowsOkWhenWellFormed(batch, results);
        BatchRowsCount(batch, results);
        assert forall k :: 0 <= k < |rows.value| ==>
                 exists i :: 0 <= i < |batch| && rows.value[k].buildingId == batch[i].buildingId by {
          forall k | 0 <= k < |rows.value|
            ensures exists i :: 0 <= i < |batch| && rows.value[k].buildingId == batch[i].buildingId
          {
            BatchRowsComeFromBatch(batch, results, k);
          }
        }
        assert UniqueIds(table) ==> UniqueIds(table + rows.value) by {
          if UniqueIds(table) {
            AppendKeepsUnique(table, rows.value);
          }
        }
        Run(br.cache, table + rows.value, br.requests, None)
  }

  /** The batch loop: batches in order, stopping at the first one that raises. */
  function RunBatches(c: CacheState, table: seq<StoredRow>, batches: seq<seq<WorkItem>>, apiKey: string,
                      census: string -> CensusReply, google: string -> GoogleReply): (r: Run)
    ensures table <= r.table
    ensures |r.table| - |table| <= |Flatten(batches)|
    ensures forall k :: |table| <= k < |r.table| ==>
              exists w :: w in Flatten(batches) && r.table[k].buildingId == w.buildingId
    ensures batches == [] ==> r == Run(c, table, [], None)
    ensures UniqueIds(table) ==> UniqueIds(r.table)
    ensures Grows(c, r.cache)
    decreases |batches|
  {
    if batches == [] then Run(c, table, [], None)
    else
      var s := BatchStep(c, table, batches[0], apiKey, census, google);
      if s.failure.Some? then s
      else
        var rest := RunBatches(s.cache, s.table, batches[1..], apiKey, census, google);
        assert Flatten(batches) == batches[0] + Flatten(batches[1..]);
        assert forall k :: |table| <= k < |rest.table| ==>
                 exists w :: w in Flatten(batches) && rest.table[k].buildingId == w.buildingId by {
          forall k | |table| <= k < |rest.table|
            ensures exists w :: w in Flatten(batches) && rest.table[k].buildingId == w.buildingId
          {
            if k < |s.table| {
              var i :| 0 <= i < |batches[0]| && s.table[k].buildingId == batches[0][i].buildingId;
              assert rest.table[k] == s.table[k];
              assert batches[0][i] in Flatten(batches);
            } else {
              var w :| w in Flatten(batches[1..]) && rest.table[k].buildingId == w.buildingId;
              assert w in Flatten(batches);
            }
          }
        }
        rest.(requests := s.requests + rest.requests)
  }

  /** A row of `_get_existing`: `SELECT DISTINCT building_id, lat, lng, geocoding_source`. */
  datatype Existing = Existing(buildingId: string, lat: real, lng: real, source: Source)

  /** The selected columns of every stored row, in order. */
  function ExistingOf(table: seq<StoredRow>): (ex: seq<Existing>)
    ensures |ex| == |table|
  {
    seq(|table|, i requires 0 <= i < |table| => Existing(table[i].buildingId, table[i].lat, table[i].lng, table[i].source))
  }

  function GetExisting(table: seq<StoredRow>): seq<Existing> {
    DropDuplicates(ExistingOf(table), {})
  }

  /** A row of the joined frame: the labelled address and the matched geocode (`NaN` columns when there is none). */
  datatype JoinedRow = JoinedRow(row: LabelledRow, point: Option<Existing>)

  /** The existing rows with a given building id, in order. */
  function Matches(ex: seq<Existing>, buildingId: string): (ms: seq<Existing>)
    ensures forall m :: m in ms <==> m in ex && m.buildingId == buildingId
    decreases |ex|
  {
    if ex == [] then []
    else (if ex[0].buildingId == buildingId then [ex[0]] else []) + Matches(ex[1..], buildingId)
  }

  /**
   * `merge(geocoded, on="building_id", how="left")`: each address row, in
   * order, once per matching geocode, or once with no geocode.
   */
  function LeftJoin(ls: seq<LabelledRow>, ex: seq<Existing>): seq<JoinedRow>
    decreases |ls|
  {
    if ls == [] then [] else JoinRow(ls[0], ex) + LeftJoin(ls[1..], ex)
  }

  /** The joined rows of one address row: one per matching geocode, or one without a geocode. */
  function JoinRow(l: LabelledRow, ex: seq<Existing>): seq<JoinedRow> {
    var ms := Matches(ex, l.buildingId);
    if ms == [] then [JoinedRow(l, None)]
    else seq(|ms|, k requires 0 <= k < |ms| => JoinedRow(l, Some(ms[k])))
  }

  /** `_join_existing`: the labelled address table left-joined with the stored geocodes. */
  function JoinExisting(ls: seq<LabelledRow>, table: seq<StoredRow>): seq<JoinedRow> {
    LeftJoin(ls, GetExisting(table))
  }

  /** No building id occurs twice among the stored geocodes (the primary key of the table). */
  predicate UniqueBuildings(ex: seq<Existing>) {
    forall i, j :: 0 <= i < j < |ex| ==> ex[i].buildingId != ex[j].buildingId
  }

  lemma {:induction false} NoMatches(ex: seq<Existing>, buildingId: string)
    requires forall i :: 0 <= i < |ex| ==> ex[i].buildingId != buildingId
    ensures Matches(ex, buildingId) == []
    decreases |ex|
  {
    if ex != [] {
      NoMatches(ex[1..], buildingId);
    }
  }

  lemma {:induction false} UniqueMatches(ex: seq<Existing>, buildingId: string)
    requires UniqueBuildings(ex)
    ensures |Matches(ex, buildingId)| <= 1
    decreases |ex|
  {
    if ex != [] {
      UniqueMatches(ex[1..], buildingId);
      if ex[0].buildingId == buildingId {
        assert forall i :: 0 <= i < |ex[1..]| ==> ex[1..][i] == ex[i + 1];
        NoMatches(ex[1..], buildingId);
      }
    }
  }

  /** The geocode a building id finds among the stored ones, if any: the first match. */
  function FirstMatch(ex: seq<Existing>, buildingId: string): Option<Existing> {
    var ms := Matches(ex, buildingId);
    if ms == [] then None else Some(ms[0])
  }

  lemma FirstMatchFound(ex: seq<Existing>, buildingId: string)
    ensures FirstMatch(ex, buildingId).Some? <==> exists m :: m in ex && m.buildingId == buildingId
    ensures FirstMatch(ex, buildingId).Some? ==>
              FirstMatch(ex, buildingId).value in ex && FirstMatch(ex, buildingId).value.buildingId == buildingId
  {
    var ms := Matches(ex, buildingId);
    if ms != [] {
      assert ms[0] in ms;
    }
  }

  /** With unique building ids an address row joins exactly once. */
  lemma JoinRowUnique(l: LabelledRow, ex: seq<Existing>)
    requires UniqueBuildings(ex)
    ensures JoinRow(l, ex) == [JoinedRow(l, FirstMatch(ex, l.buildingId))]
  {
    UniqueMatches(ex, l.buildingId);
  }

  /** With unique building ids the left join pairs each row, in order, with the geocode its building finds. */
  lemma {:induction false} LeftJoinIsLookup(ls: seq<LabelledRow>, ex: seq<Existing>)
    requires UniqueBuildings(ex)
    ensures |LeftJoin(ls, ex)| == |ls|
    ensures forall i :: 0 <= i < |ls| ==> LeftJoin(ls, ex)[i] == JoinedRow(ls[i], FirstMatch(ex, ls[i].buildingId))
    decreases |ls|
  {
    if ls != [] {
      LeftJoinIsLookup(ls[1..], ex);
      JoinRowUnique(ls[0], ex);
      assert LeftJoin(ls, ex) == [JoinedRow(ls[0], FirstMatch(ex, ls[0].buildingId))] + LeftJoin(ls[1..], ex);
      forall i | 1 <= i < |ls|
        ensures LeftJoin(ls, ex)[i] == LeftJoin(ls[1..], ex)[i - 1] && ls[i] == ls[1..][i - 1]
      {
      }
    }
  }

  /**
   * With one geocode per building, the left join keeps every address row, in
   * order, and gives it the geocode of its building when there is one: every
   * unit of a geocoded building receives the building's point.
   */
  lemma {:induction false} LeftJoinKeepsRows(ls: seq<LabelledRow>, ex: seq<Existing>)
    requires UniqueBuildings(ex)
    ensures |LeftJoin(ls, ex)| == |ls|
    ensures forall i :: 0 <= i < |ls| ==> LeftJoin(ls, ex)[i].row == ls[i]
    ensures forall i :: 0 <= i < |ls| ==>
              (LeftJoin(ls, ex)[i].point.Some? <==> exists m :: m in ex && m.buildingId == ls[i].buildingId)
    ensures forall i :: 0 <= i < |ls| && LeftJoin(ls, ex)[i].point.Some? ==>
              LeftJoin(ls, ex)[i].point.value in ex && LeftJoin(ls, ex)[i].point.value.buildingId == ls[i].buildingId
    decreases |ls|
  {
    LeftJoinIsLookup(ls, ex);
    forall i | 0 <= i < |ls|
      ensures LeftJoin(ls, ex)[i].row == ls[i]
      ensures LeftJoin(ls, ex)[i].point.Some? <==> exists m :: m in ex && m.buildingId == ls[i].buildingId
      ensures LeftJoin(ls, ex)[i].point.Some? ==>
                LeftJoin(ls, ex)[i].point.value in ex && LeftJoin(ls, ex)[i].point.value.buildingId == ls[i].buildingId
    {
      FirstMatchFound(ex, ls[i].buildingId);
    }
  }

  /** Under the primary key `DISTINCT` removes nothing, and no building id occurs twice among the stored geocodes. */
  lemma StoredGeocodesUnique(table: seq<StoredRow>)
    requires UniqueIds(table)
    ensures GetExisting(table) == ExistingOf(table)
    ensures UniqueBuildings(GetExisting(table))
  {
    DropDuplicatesOfDistinct(ExistingOf(table), {});
  }

  /** A stored geocode with a given building id exists exactly when that id is in the table. */
  lemma ExistingIdsAreStored(table: seq<StoredRow>, buildingId: string)
    ensures (exists m :: m in GetExisting(table) && m.buildingId == buildingId) <==> buildingId in StoredIds(table)
  {
    var ex := ExistingOf(table);
    if buildingId in StoredIds(table) {
      var r :| r in table && r.buildingId == buildingId;
      var i :| 0 <= i < |table| && table[i] == r;
      assert ex[i] in ex;
    }
    if m :| m in GetExisting(table) && m.buildingId == buildingId {
      var i :| 0 <= i < |ex| && ex[i] == m;
      assert table[i] in table;
    }
  }

  /**
   * The frame `geocode` returns: with the primary key holding on the table it
   * started from, the table stays keyed by building id, and the join keeps
   * every address row, in order, giving it a point exactly when its building
   * is stored, namely that building's geocode.
   */
  lemma GeocodeJoinKeepsRows(ls: seq<LabelledRow>, c: CacheState, table: seq<StoredRow>, batchSize: nat,
                             apiKey: string, census: string -> CensusReply, google: string -> GoogleReply)
    requires batchSize > 0 && UniqueIds(table)
    ensures var run := GeocodeRun(ls, c, table, batchSize, apiKey, census, google);
            var joined := JoinExisting(ls, run.table);
            && UniqueIds(run.table) && UniqueBuildings(GetExisting(run.table))
            && |joined| == |ls|
            && (forall i :: 0 <= i < |ls| ==> joined[i].row == ls[i])
            && (forall i :: 0 <= i < |ls| ==> (joined[i].point.Some? <==> ls[i].buildingId in StoredIds(run.table)))
            && (forall i :: 0 <= i < |ls| && joined[i].point.Some? ==>
                  joined[i].point.value in GetExisting(run.table) && joined[i].point.value.buildingId == ls[i].buildingId)
  {
    var run := GeocodeRun(ls, c, table, batchSize, apiKey, census, google);
    StoredGeocodesUnique(run.table);
    LeftJoinKeepsRows(ls, GetExisting(run.table));
    forall i | 0 <= i < |ls|
      ensures (exists m :: m in GetExisting(run.table) && m.buildingId == ls[i].buildingId) <==> ls[i].buildingId in StoredIds(run.table)
    {
      ExistingIdsAreStored(run.table, ls[i].buildingId);
    }
  }

  /**
   * The geocoder: its configuration, the address table, the cache directories
   * and the durable table of stored geocodes.
   */
  class Geocoder {
    /** SHA-256 of the UTF-8 bytes, as hex: an uninterpreted function. */
    const hash: string -> string
    /** Whether a unit column was configured (`self.unit_col` is set). */
    const hasUnitCol: bool
    const cache: CacheDirs
    var addresses: seq<AddressRow>
    var table: seq<StoredRow>

    constructor (hash: string -> string, hasUnitCol: bool, addresses: seq<AddressRow>, cache: CacheDirs, table: seq<StoredRow>)
      ensures this.hash == hash && this.hasUnitCol == hasUnitCol && this.cache == cache
      ensures this.addresses == addresses && this.table == table
    {
      this.hash := hash;
      this.hasUnitCol := hasUnitCol;
      this.cache := cache;
      this.addresses := addresses;
      this.table := table;
    }

    /** One batch through the worker pool: a lookup per item, in order, sharing the cache directories. */
    method GeocodeBatch(batch: seq<WorkItem>, apiKey: string, census: string -> CensusReply, google: string -> GoogleReply)
      returns (outcomes: seq<Outcome>, requests: seq<Request>)
      modifies cache
      ensures BatchRun(outcomes, cache.State(), requests) == RunItems(old(cache.State()), batch, apiKey, census, google)
    {
      outcomes, requests := [], [];
      var k := 0;
      while k < |batch|
        invariant 0 <= k <= |batch|
        invariant BatchRun(outcomes, cache.State(), requests) == RunItems(old(cache.State()), batch[..k], apiKey, census, google)
      {
        var w := batch[k];
        var outcome, rs := cache.GeocodeSingle(w, apiKey, census(OneLineAddress(w)), google(OneLineAddress(w)));
        outcomes, requests := outcomes + [outcome], requests + rs;
        assert batch[..k + 1][..k] == batch[..k];
        k := k + 1;
      }
      assert batch[..k] == batch;
    }

    /**
     * One turn of the batch loop: look the batch up, stop on the first worker
     * fault or malformed reply, otherwise append the batch's rows to the table.
     */
    method ApplyBatch(batch: seq<WorkItem>, apiKey: string, census: string -> CensusReply, google: string -> GoogleReply)
      returns (failure: Option<BatchError>, batchRequests: seq<Request>)
      modifies this, cache
      ensures addresses == old(addresses)
      ensures Run(cache.State(), table, batchRequests, failure) == BatchStep(old(cache.State()), old(table), batch, apiKey, census, google)
    {
      var outcomes;
      outcomes, batchRequests := GeocodeBatch(batch, apiKey, census, google);
      var fault := FirstFault(outcomes);
      if fault.Some? {
        return Some(WorkerRaised(fault.value)), batchRequests;
      }
      var rows := BatchRows(batch, Results(outcomes));
      if rows.Err? {
        return Some(rows.error), batchRequests;
      }
      if rows.value == [] {
        return Some(EmptyFrame), batchRequests;
      }
      if !FreshKeys(table, rows.value) {
        return Some(DuplicateKey), batchRequests;
      }
      table := table + rows.value;
      failure := None;
    }

    /** The batch loop of `geocode`: the batches in order, stopping at the first that raises. */
    method ApplyBatches(batches: seq<seq<WorkItem>>, apiKey: string, census: string -> CensusReply, google: string -> GoogleReply)
      returns (failure: Option<BatchError>, requests: seq<Request>)
      modifies this, cache
      ensures addresses == old(addresses)
      ensures Run(cache.State(), table, requests, failure) == RunBatches(old(cache.State()), old(table), batches, apiKey, census, google)
    {
      ghost var full := RunBatches(cache.State(), table, batches, apiKey, census, google);
      requests := [];
      var b := 0;
      while b < |batches|
        invariant 0 <= b <= |batches|
        invariant addresses == old(addresses)
        invariant Resumes(full, RunBatches(cache.State(), table, batches[b..], apiKey, census, google), requests)
      {
        ghost var c, t, sent := cache.State(), table, requests;
        var fault, batchRequests := ApplyBatch(batches[b], apiKey, census, google);
        requests := requests + batchRequests;
        ResumeStep(full, c, t, batches, b, sent, Run(cache.State(), table, batchRequests, fault), apiKey, census, google);
        if fault.Some? {
          return fault, requests;
        }
        b := b + 1;
      }
      assert batches[b..] == [];
      failure := None;
    }

    /**
     * `geocode(batch_size)`: label the rows, skip the stored buildings,
     * deduplicate, then for each batch look up every item and append the
     * resolved rows; finally left-join the stored geocodes onto the rows.
     */
    method Geocode(batchSize: nat, apiKey: string, census: string -> CensusReply, google: string -> GoogleReply)
      returns (result: Result<seq<JoinedRow>, BatchError>, requests: seq<Request>)
      requires batchSize > 0
      modifies this, cache
      ensures addresses == old(addresses)
      ensures UniqueIds(old(table)) ==> UniqueIds(table)
      ensures var run := GeocodeRun(Label(hash, hasUnitCol, addresses), old(cache.State()), old(table),
                                    batchSize, apiKey, census, google);
              && cache.State() == run.cache && table == run.table && requests == run.requests
              && result == (if run.failure.Some? then Err(run.failure.value)
                            else Ok(JoinExisting(Label(hash, hasUnitCol, addresses), run.table)))
    {
      var labelled := Label(hash, hasUnitCol, addresses);
      var batches := Plan(labelled, table, batchSize);
      var failure;
      failure, requests := ApplyBatches(batches, apiKey, census, google);
      if failure.Some? {
        return Err(failure.value), requests;
      }
      result := Ok(JoinExisting(labelled, table));
    }
  }

  /** `full` is the run `rest` still has to do, after the requests already sent. */
  predicate Resumes(full: Run, rest: Run, sent: seq<Request>) {
    full == rest.(requests := sent + rest.requests)
  }

  /** One batch of the loop is done: either it raised and the run is over, or the rest resumes after it. */
  lemma ResumeStep(full: Run, c: CacheState, table: seq<StoredRow>, batches: seq<seq<WorkItem>>, b: nat, sent: seq<Request>,
                   step: Run, apiKey: string, census: string -> CensusReply, google: string -> GoogleReply)
    requires b < |batches|
    requires Resumes(full, RunBatches(c, table, batches[b..], apiKey, census, google), sent)
    requires step == BatchStep(c, table, batches[b], apiKey, census, google)
    ensures step.failure.Some? ==> full == step.(requests := sent + step.requests)
    ensures step.failure.None? ==>
              Resumes(full, RunBatches(step.cache, step.table, batches[b + 1..], apiKey, census, google), sent + step.requests)
  {
    RunBatchesUnfold(c, table, batches[b..], apiKey, census, google);
    assert batches[b..][0] == batches[b] && batches[b..][1..] == batches[b + 1..];
  }

  /** One unfolding of the batch loop. */
  lemma RunBatchesUnfold(c: CacheState, table: seq<StoredRow>, batches: seq<seq<WorkItem>>, apiKey: string,
                         census: string -> CensusReply, google: string -> GoogleReply)
    requires batches != []
    ensures var s := BatchStep(c, table, batches[0], apiKey, census, google);
            RunBatches(c, table, batches, apiKey, census, google) ==
              if s.failure.Some? then s
              else var rest := RunBatches(s.cache, s.table, batches[1..], apiKey, census, google);
                   rest.(requests := s.requests + rest.requests)
  {
  }

  /**
   * Item `k` of a batch is looked up on the cache files left by the items
   * before it, and the batch's remaining lookups do not change that outcome.
   */
  lemma {:induction false} RunItemsAt(c: CacheState, items: seq<WorkItem>, k: nat, apiKey: string,
                                      census: string -> CensusReply, google: string -> GoogleReply)
    requires k < |items|
    ensures var before := RunItems(c, items[..k], apiKey, census, google).cache;
            var w := items[k];
            RunItems(c, items, apiKey, census, google).outcomes[k] ==
              SingleLookup(before, w, apiKey, census(OneLineAddress(w)), google(OneLineAddress(w))).outcome
    decreases |items|
  {
    var n := |items| - 1;
    if k < n {
      RunItemsAt(c, items[..n], k, apiKey, census, google);
      assert items[..n][..k] == items[..k] && items[..n][k] == items[k];
    } else {
      assert items[..n] == items[..k];
    }
  }

  /**
   * After a batch that raised nothing, every item returned, and every item
   * that resolved has its row, built from its own result, among the rows the
   * batch appended.
   */
  lemma BatchStepStoresResolved(c: CacheState, table: seq<StoredRow>, batch: seq<WorkItem>, i: nat, apiKey: string,
                                census: string -> CensusReply, google: string -> GoogleReply)
    requires BatchStep(c, table, batch, apiKey, census, google).failure.None? && i < |batch|
    ensures var r := BatchStep(c, table, batch, apiKey, census, google);
            var o := RunItems(c, batch, apiKey, census, google).outcomes[i];
            o.Returned? &&
            (Truthy(o.result) ==> exists k :: |table| <= k < |r.table| && ToStored(batch[i], o.result) == Ok(r.table[k]))
  {
    var r := BatchStep(c, table, batch, apiKey, census, google);
    var os := RunItems(c, batch, apiKey, census, google).outcomes;
    assert FirstFault(os).None?;
    var results := Results(os);
    var rows := BatchRows(batch, results);
    if Truthy(results[i]) {
      BatchRowsOkWhenWellFormed(batch, results);
      var ks := Kept(results);
      var k' :| 0 <= k' < |ks| && ks[k'] == i;
      BatchRowAt(batch, results, k');
      assert r.table[|table| + k'] == rows.value[k'];
    }
  }

  /** Running `a` then `b` is running `a + b`: the first batch that raises ends the loop. */
  lemma {:induction false} RunBatchesConcat(c: CacheState, table: seq<StoredRow>, a: seq<seq<WorkItem>>, b: seq<seq<WorkItem>>,
                                            apiKey: string, census: string -> CensusReply, google: string -> GoogleReply)
    ensures var p := RunBatches(c, table, a, apiKey, census, google);
            RunBatches(c, table, a + b, apiKey, census, google) ==
              if p.failure.Some? then p
              else var q := RunBatches(p.cache, p.table, b, apiKey, census, google);
                   q.(requests := p.requests + q.requests)
    decreases |a|
  {
    if a == [] {
      assert a + b == b;
    } else {
      var s := BatchStep(c, table, a[0], apiKey, census, google);
      assert (a + b)[0] == a[0] && (a + b)[1..] == a[1..] + b;
      RunBatchesUnfold(c, table, a, apiKey, census, google);
      RunBatchesUnfold(c, table, a + b, apiKey, census, google);
      if s.failure.None? {
        RunBatchesConcat(s.cache, s.table, a[1..], b, apiKey, census, google);
        var p' := RunBatches(s.cache, s.table, a[1..], apiKey, census, google);
        RestAfterStep(s.requests, p', RunBatches(p'.cache, p'.table, b, apiKey, census, google),
                      RunBatches(s.cache, s.table, a[1..] + b, apiKey, census, google));
      }
    }
  }

  /** The bookkeeping step of `RunBatchesConcat`: prefixing the requests of a step commutes with the split. */
  lemma RestAfterStep(sent: seq<Request>, p': Run, q: Run, whole: Run)
    requires whole == if p'.failure.Some? then p' else q.(requests := p'.requests + q.requests)
    ensures var p := p'.(requests := sent + p'.requests);
            whole.(requests := sent + whole.requests) ==
              if p.failure.Some? then p else q.(requests := p.requests + q.requests)
  {
    assert sent + (p'.requests + q.requests) == (sent + p'.requests) + q.requests;
  }

  /**
   * A batch that raises ends the run: the table is the one the batches before
   * it left, and the run fails with that batch's error.
   */
  lemma RunBatchesStopsAtFailure(c: CacheState, table: seq<StoredRow>, bs: seq<seq<WorkItem>>, j: nat,
                                 apiKey: string, census: string -> CensusReply, google: string -> GoogleReply)
    requires j < |bs|
    requires RunBatches(c, table, bs[..j], apiKey, census, google).failure.None?
    requires var p := RunBatches(c, table, bs[..j], apiKey, census, google);
             BatchStep(p.cache, p.table, bs[j], apiKey, census, google).failure.Some?
    ensures var p := RunBatches(c, table, bs[..j], apiKey, census, google);
            var r := RunBatches(c, table, bs, apiKey, census, google);
            r.table == p.table && r.failure == BatchStep(p.cache, p.table, bs[j], apiKey, census, google).failure
  {
    var p := RunBatches(c, table, bs[..j], apiKey, census, google);
    RunBatchesConcat(c, table, bs[..j], bs[j..], apiKey, census, google);
    assert bs[..j] + bs[j..] == bs;
    RunBatchesUnfold(p.cache, p.table, bs[j..], apiKey, census, google);
    assert bs[j..][0] == bs[j];
  }

  /**
   * After a run that raised nothing, every batch passed, and the rows each
   * appended are still in the final table.
   */
  lemma EveryBatchCommitted(c: CacheState, table: seq<StoredRow>, bs: seq<seq<WorkItem>>, j: nat,
                            apiKey: string, census: string -> CensusReply, google: string -> GoogleReply)
    requires RunBatches(c, table, bs, apiKey, census, google).failure.None? && j < |bs|
    ensures var p := RunBatches(c, table, bs[..j], apiKey, census, google);
            var s := BatchStep(p.cache, p.table, bs[j], apiKey, census, google);
            p.failure.None? && s.failure.None? && table <= p.table &&
            s.table <= RunBatches(c, table, bs, apiKey, census, google).table
  {
    var p := RunBatches(c, table, bs[..j], apiKey, census, google);
    RunBatchesConcat(c, table, bs[..j], bs[j..], apiKey, census, google);
    assert bs[..j] + bs[j..] == bs;
    RunBatchesUnfold(p.cache, p.table, bs[j..], apiKey, census, google);
    assert bs[j..][0] == bs[j] && bs[j..][1..] == bs[j + 1..];
  }

  /**
   * What a successful `geocode` loop stores: every work item, looked up on the
   * cache files everything before it left, returned; and when it resolved, its
   * row (its id, its address, the coordinates and source tag of its result) is
   * in the final table.
   */
  lemma ResolvedItemIsStored(c: CacheState, table: seq<StoredRow>, bs: seq<seq<WorkItem>>, j: nat, i: nat,
                             apiKey: string, census: string -> CensusReply, google: string -> GoogleReply)
    requires RunBatches(c, table, bs, apiKey, census, google).failure.None?
    requires j < |bs| && i < |bs[j]|
    ensures var r := RunBatches(c, table, bs, apiKey, census, google);
            var p := RunBatches(c, table, bs[..j], apiKey, census, google);
            var before := RunItems(p.cache, bs[j][..i], apiKey, census, google).cache;
            var w := bs[j][i];
            var o := SingleLookup(before, w, apiKey, census(OneLineAddress(w)), google(OneLineAddress(w))).outcome;
            o.Returned? &&
            (Truthy(o.result) ==> exists k :: |table| <= k < |r.table| && ToStored(w, o.result) == Ok(r.table[k]))
  {
    var r := RunBatches(c, table, bs, apiKey, census, google);
    var p := RunBatches(c, table, bs[..j], apiKey, census, google);
    EveryBatchCommitted(c, table, bs, j, apiKey, census, google);
    RunItemsAt(p.cache, bs[j], i, apiKey, census, google);
    BatchStepStoresResolved(p.cache, p.table, bs[j], i, apiKey, census, google);
    var s := BatchStep(p.cache, p.table, bs[j], apiKey, census, google);
    var o := RunItems(p.cache, bs[j], apiKey, census, google).outcomes[i];
    if Truthy(o.result) {
      var k :| |p.table| <= k < |s.table| && ToStored(bs[j][i], o.result) == Ok(s.table[k]);
      assert r.table[k] == s.table[k];
    }
  }

  /**
   * Two spellings of one building in one batch abort it on the primary key:
   * in the in-order rendering the first lookup stores the census answer under
   * the shared building id, the second reads it back, and both rows carry that id. Nothing is
   * committed, so a later run starts from the same table and queues both
   * spellings again.
   */
  lemma CaseVariantsAbortBatch(hash: string -> string, hasUnitCol: bool, r1: AddressRow, r2: AddressRow,
                               c: CacheState, table: seq<StoredRow>, apiKey: string,
                               census: string -> CensusReply, google: string -> GoogleReply, m: seq<CensusMatch>)
    requires SameUpToCase(r1.street, r2.street)
    requires r1.city == r2.city && r1.state == r2.state && r1.zip == r2.zip
    requires var b := GenerateId(hash, r1, false, hasUnitCol); b !in c.censusSuccess && b !in c.censusFail
    requires |m| > 0 && census(OneLineAddress(Project(Label(hash, hasUnitCol, [r1, r2])[0]))) == CensusReturned(m)
    ensures var ls := Label(hash, hasUnitCol, [r1, r2]);
            BatchStep(c, table, [Project(ls[0]), Project(ls[1])], apiKey, census, google).failure == Some(DuplicateKey)
  {
    IdIgnoresCase(hash, r1, r2, false, hasUnitCol);
    var ls := Label(hash, hasUnitCol, [r1, r2]);
    var batch := [Project(ls[0]), Project(ls[1])];
    SharedIdLookups(c, batch[0], batch[1], apiKey, census, google, m);
    assert batch == [batch[0], batch[1]];
    var os := RunItems(c, batch, apiKey, census, google).outcomes;
    assert FirstFault(os).None?;
    assert Results(os) == [CensusResult(m), CensusResult(m)];
    CensusPairRowsClash(batch, m);
  }

  /** Two items with one building id: in the in-order rendering the census answer for the first is read back from the cache for the second. */
  lemma {:induction false} SharedIdLookups(c: CacheState, w0: WorkItem, w1: WorkItem, apiKey: string,
                                         census: string -> CensusReply, google: string -> GoogleReply, m: seq<CensusMatch>)
    requires w0.buildingId == w1.buildingId && w0.buildingId !in c.censusSuccess && w0.buildingId !in c.censusFail
    requires |m| > 0 && census(OneLineAddress(w0)) == CensusReturned(m)
    ensures RunItems(c, [w0, w1], apiKey, census, google).outcomes == [Returned(CensusResult(m)), Returned(CensusResult(m))]
  {
    var batch := [w0, w1];
    var c' := c.(censusSuccess := c.censusSuccess[w0.buildingId := m]);
    assert batch[..1] == [w0] && [w0][..0] == [];
    var s0 := SingleLookup(c, w0, apiKey, census(OneLineAddress(w0)), google(OneLineAddress(w0)));
    assert s0.outcome == Returned(CensusResult(m)) && s0.cache == c';
    var first := RunItems(c, [w0], apiKey, census, google);
    assert RunItems(c, [w0][..0], apiKey, census, google) == BatchRun([], c, []);
    assert first == BatchRun([] + [s0.outcome], s0.cache, [] + s0.requests);
    var s1 := SingleLookup(c', w1, apiKey, census(OneLineAddress(w1)), google(OneLineAddress(w1)));
    assert s1.outcome == Returned(CensusResult(m));
    assert RunItems(c, batch, apiKey, census, google).outcomes == first.outcomes + [s1.outcome];
  }

  /** Two census matches for one building id build two rows with that id, which the key check refuses. */
  lemma {:induction false} CensusPairRowsClash(batch: seq<WorkItem>, m: seq<CensusMatch>)
    requires |batch| == 2 && batch[0].buildingId == batch[1].buildingId && |m| > 0
    ensures var rows := BatchRows(batch, [CensusResult(m), CensusResult(m)]);
            rows.Ok? && rows.value != [] && !UniqueIds(rows.value)
  {
    var results := [CensusResult(m), CensusResult(m)];
    var one := ToStored(batch[0], results[0]).value;
    var two := ToStored(batch[1], results[1]).value;
    assert batch[..1][..0] == [] && results[..1][..0] == [];
    assert BatchRows(batch[..1], results[..1]) == Ok([] + [one]);
    assert [] + [one] == [one] && [one] + [two] == [one, two];
    assert BatchRows(batch, results) == Ok([one] + [two]);
    assert [one, two][0].buildingId == [one, two][1].buildingId;
  }

  /** The batches `geocode` works through for a labelled table and a durable table. */
  function Plan(ls: seq<LabelledRow>, table: seq<StoredRow>, batchSize: nat): seq<seq<WorkItem>>
    requires batchSize > 0
  {
    Batches(WorkList(ls, StoredIds(table)), batchSize)
  }

  /** The state `geocode` leaves behind: the batch loop run over the plan. */
  function GeocodeRun(ls: seq<LabelledRow>, c: CacheState, table: seq<StoredRow>, batchSize: nat, apiKey: string,
                      census: string -> CensusReply, google: string -> GoogleReply): Run
    requires batchSize > 0
  {
    RunBatches(c, table, Plan(ls, table, batchSize), apiKey, census, google)
  }

  /**
   * A second `geocode` over rows whose buildings are all stored makes no
   * request and changes neither the caches nor the table.
   */
  lemma RepeatedGeocodeIsOffline(ls: seq<LabelledRow>, c: CacheState, table: seq<StoredRow>, batchSize: nat,
                                 apiKey: string, census: string -> CensusReply, google: string -> GoogleReply)
    requires batchSize > 0
    requires forall i :: 0 <= i < |ls| ==> ls[i].buildingId in StoredIds(table)
    ensures GeocodeRun(ls, c, table, batchSize, apiKey, census, google) == Run(c, table, [], None)
  {
    AllStoredMeansNoWork(ls, StoredIds(table));
  }
}
