/**
 * The per-address resolver of `geocode.py`: `Geocoder._geocode_single_google`
 * and `Geocoder._geocode_single`, a decision procedure over four cache
 * directories (census success and failure, google success and failure) and
 * two services, the census geocoder and the Google geocoding API.
 *
 * A service call is an oracle: the reply it would give is an argument, and
 * every request actually made is recorded in a request log.
 */
module GeocodeCache {

  /** The `(building_id, street, city, state, zip)` row one lookup works on. */
  datatype WorkItem = WorkItem(buildingId: string, street: string, city: string, state: string, zip: string)

  /** `" ".join([street, city, state, zip])`: the one-line address sent to both services. */
  function OneLineAddress(w: WorkItem): string {
    w.street + " " + w.city + " " + w.state + " " + w.zip
  }

  /** One census candidate; only its `coordinates` (`x` is the longitude, `y` the latitude) are modelled. */
  datatype CensusMatch = CensusMatch(x: real, y: real)

  /** One Google candidate; only `geometry.location` is modelled. */
  datatype GoogleCandidate = GoogleCandidate(lat: real, lng: real)

  /** A Google response body: its `status` field and its `results` list. */
  datatype GoogleBody = GoogleBody(status: string, results: seq<GoogleCandidate>)

  /** What `cg.onelineaddress(addr)` does: return a list of candidates, or raise. */
  datatype CensusReply = CensusReturned(matches: seq<CensusMatch>) | CensusRaised

  /**
   * What the Google request does: return a JSON body, or raise (transport
   * failure, an HTTP error status from `raise_for_status`, or a body that is
   * not JSON).
   */
  datatype GoogleReply = GoogleReturned(body: GoogleBody) | GoogleRaised

  /** A network request made by a lookup. */
  datatype Request = CensusRequest(address: string) | GoogleRequest(address: string)

  /** The exceptions a lookup can raise: the missing-key `ValueError`, or a request exception. */
  datatype Fault = MissingApiKey | RequestFailed

  /** A lookup's return value: `None`, the census candidate list, or the Google body (a dict). */
  datatype GeoResult = NoResult | CensusResult(matches: seq<CensusMatch>) | GoogleResult(body: GoogleBody)

  /** A lookup either returns a value or raises. */
  datatype Outcome = Returned(result: GeoResult) | Raised(fault: Fault)

  /**
   * The four cache directories: a success file holds the payload (a JSON
   * round trip returns it unchanged), a failure file only marks the id.
   */
  datatype CacheState = CacheState(censusSuccess: map<string, seq<CensusMatch>>, censusFail: set<string>,
                                   googleSuccess: map<string, GoogleBody>, googleFail: set<string>)

  /** The next state of the caches after a lookup, its outcome and the requests it made. */
  datatype Lookup = Lookup(outcome: Outcome, cache: CacheState, requests: seq<Request>)

  /** No cache entry is deleted or rewritten: every entry of `c` is still in `d`. */
  predicate Grows(c: CacheState, d: CacheState) {
    && c.censusSuccess.Items <= d.censusSuccess.Items
    && c.censusFail <= d.censusFail
    && c.googleSuccess.Items <= d.googleSuccess.Items
    && c.googleFail <= d.googleFail
  }

  /** Whether a request of the census service is among `rs`. */
  predicate CallsCensus(rs: seq<Request>) {
    exists i :: 0 <= i < |rs| && rs[i].CensusRequest?
  }

  /**
   * `_geocode_single_google`. The API key (an empty string stands for an
   * unset variable) is checked before either cache; a success file wins over a
   * failure file; on a miss one request is made, and a status of "OK" writes
   * only the success entry while any other status writes only the failure
   * marker. A raising request writes nothing and propagates.
   */
  function GoogleLookup(c: CacheState, id: string, addr: string, apiKey: string, reply: GoogleReply): (s: Lookup)
    ensures apiKey == "" ==> s == Lookup(Raised(MissingApiKey), c, [])
    ensures apiKey != "" && id in c.googleSuccess ==> s == Lookup(Returned(GoogleResult(c.googleSuccess[id])), c, [])
    ensures apiKey != "" && id !in c.googleSuccess && id in c.googleFail ==> s == Lookup(Returned(NoResult), c, [])
    ensures s.requests == [] || s.requests == [GoogleRequest(addr)]
    ensures s.requests != [] <==> apiKey != "" && id !in c.googleSuccess && id !in c.googleFail
    ensures s.requests != [] && reply.GoogleReturned? && reply.body.status == "OK" ==>
              s == Lookup(Returned(GoogleResult(reply.body)), c.(googleSuccess := c.googleSuccess[id := reply.body]), s.requests)
    ensures s.requests != [] && reply.GoogleReturned? && reply.body.status != "OK" ==>
              s == Lookup(Returned(NoResult), c.(googleFail := c.googleFail + {id}), s.requests)
    ensures s.requests != [] && reply.GoogleRaised? ==> s == Lookup(Raised(RequestFailed), c, [GoogleRequest(addr)])
    ensures s.outcome.Raised? ==> s.cache == c
    ensures s.cache.censusSuccess == c.censusSuccess && s.cache.censusFail == c.censusFail
    ensures !s.outcome.Returned? || !s.outcome.result.CensusResult?
    ensures Grows(c, s.cache)
  {
    if apiKey == "" then Lookup(Raised(MissingApiKey), c, [])
    else if id in c.googleSuccess then Lookup(Returned(GoogleResult(c.googleSuccess[id])), c, [])
    else if id in c.googleFail then Lookup(Returned(NoResult), c, [])
    else
      match reply
      case GoogleRaised => Lookup(Raised(RequestFailed), c, [GoogleRequest(addr)])
      case GoogleReturned(body) =>
        if body.status == "OK" then
          Lookup(Returned(GoogleResult(body)), c.(googleSuccess := c.googleSuccess[id := body]), [GoogleRequest(addr)])
        else
          Lookup(Returned(NoResult), c.(googleFail := c.googleFail + {id}), [GoogleRequest(addr)])
  }

  /**
   * `_geocode_single`. A census success file is returned as is; a census
   * failure file sends the lookup straight to the Google path, whose
   * exceptions propagate; otherwise the census service is called inside a
   * `try` whose handler turns every exception, including one raised by the
   * Google fallback, into `None`.
   */
  function SingleLookup(c: CacheState, w: WorkItem, apiKey: string, census: CensusReply, google: GoogleReply): (s: Lookup)
    ensures w.buildingId in c.censusSuccess ==>
              s == Lookup(Returned(CensusResult(c.censusSuccess[w.buildingId])), c, [])
    ensures w.buildingId !in c.censusSuccess && w.buildingId in c.censusFail ==>
              s == GoogleLookup(c, w.buildingId, OneLineAddress(w), apiKey, google)
    ensures w.buildingId !in c.censusSuccess && w.buildingId !in c.censusFail ==>
              && |s.requests| > 0 && s.requests[0] == CensusRequest(OneLineAddress(w))
              && s.outcome.Returned?
    ensures w.buildingId !in c.censusSuccess && w.buildingId !in c.censusFail
            && census.CensusReturned? && |census.matches| > 0 ==>
              s == Lookup(Returned(CensusResult(census.matches)),
                          c.(censusSuccess := c.censusSuccess[w.buildingId := census.matches]),
                          [CensusRequest(OneLineAddress(w))])
    ensures w.buildingId !in c.censusSuccess && w.buildingId !in c.censusFail && census.CensusRaised? ==>
              s == Lookup(Returned(NoResult), c, [CensusRequest(OneLineAddress(w))])
    ensures w.buildingId !in c.censusSuccess && w.buildingId !in c.censusFail && census == CensusReturned([]) ==>
              && w.buildingId in s.cache.censusFail
              && s.cache.censusSuccess == c.censusSuccess
    ensures w.buildingId !in c.censusSuccess && w.buildingId !in c.censusFail && census == CensusReturned([]) ==>
              var g := GoogleLookup(c.(censusFail := c.censusFail + {w.buildingId}), w.buildingId, OneLineAddress(w), apiKey, google);
              s == Lookup(if g.outcome.Raised? then Returned(NoResult) else g.outcome, g.cache, [CensusRequest(OneLineAddress(w))] + g.requests)
    ensures s.outcome.Raised? ==> w.buildingId in c.censusFail && s.cache == c
    ensures CallsCensus(s.requests) <==> w.buildingId !in c.censusSuccess && w.buildingId !in c.censusFail
    ensures Grows(c, s.cache)
  {
    var id := w.buildingId;
    var addr := OneLineAddress(w);
    if id in c.censusSuccess then Lookup(Returned(CensusResult(c.censusSuccess[id])), c, [])
    else if id in c.censusFail then GoogleLookup(c, id, addr, apiKey, google)
    else
      match census
      case CensusRaised => Lookup(Returned(NoResult), c, [CensusRequest(addr)])
      case CensusReturned(m) =>
        if |m| > 0 then
          Lookup(Returned(CensusResult(m)), c.(censusSuccess := c.censusSuccess[id := m]), [CensusRequest(addr)])
        else
          var g := GoogleLookup(c.(censusFail := c.censusFail + {id}), id, addr, apiKey, google);
          Lookup(if g.outcome.Raised? then Returned(NoResult) else g.outcome, g.cache, [CensusRequest(addr)] + g.requests)
  }

  /** A lookup that resolved its address is memoised: repeating it returns the same value and makes no request. */
  lemma ResolvedLookupIsMemoised(c: CacheState, w: WorkItem, apiKey: string, census: CensusReply, google: GoogleReply,
                                 census2: CensusReply, google2: GoogleReply)
    requires SingleLookup(c, w, apiKey, census, google).outcome.Returned?
    requires SingleLookup(c, w, apiKey, census, google).outcome.result != NoResult
    ensures var s := SingleLookup(c, w, apiKey, census, google);
            SingleLookup(s.cache, w, apiKey, census2, google2) == Lookup(s.outcome, s.cache, [])
  {
  }

  /** Once the census service has reported no match for an id, it is never asked about that id again. */
  lemma CensusNoMatchIsNotRetried(c: CacheState, w: WorkItem, apiKey: string, google: GoogleReply,
                                  census2: CensusReply, google2: GoogleReply)
    requires w.buildingId !in c.censusSuccess
    ensures var s := SingleLookup(c, w, apiKey, CensusReturned([]), google);
            !CallsCensus(SingleLookup(s.cache, w, apiKey, census2, google2).requests)
  {
  }

  /** Once Google has answered with a non-"OK" status, the id resolves to `None` with no request, whatever it would answer now. */
  lemma GoogleFailureIsPermanent(c: CacheState, id: string, addr: string, apiKey: string, body: GoogleBody, reply2: GoogleReply)
    requires apiKey != "" && id !in c.googleSuccess && body.status != "OK"
    ensures var s := GoogleLookup(c, id, addr, apiKey, GoogleReturned(body));
            GoogleLookup(s.cache, id, addr, apiKey, reply2) == Lookup(Returned(NoResult), s.cache, [])
  {
  }

  /**
   * The four cache directories (`census/success`, `census/fail`,
   * `google/success`, `google/fail`) as mutable collections of files.
   */
  class CacheDirs {
    var censusSuccess: map<string, seq<CensusMatch>>
    var censusFail: set<string>
    var googleSuccess: map<string, GoogleBody>
    var googleFail: set<string>

    /** The files currently in the four directories. */
    function State(): CacheState
      reads this
    {
      CacheState(censusSuccess, censusFail, googleSuccess, googleFail)
    }

    /** `mkdir(parents=True, exist_ok=True)`: directories that already exist keep their files. */
    constructor (existing: CacheState)
      ensures State() == existing
    {
      censusSuccess := existing.censusSuccess;
      censusFail := existing.censusFail;
      googleSuccess := existing.googleSuccess;
      googleFail := existing.googleFail;
    }

    /** `_geocode_single_google`: consults and writes the Google directories as `GoogleLookup` says. */
    method GeocodeSingleGoogle(id: string, addr: string, apiKey: string, reply: GoogleReply)
      returns (outcome: Outcome, requests: seq<Request>)
      modifies this
      ensures Lookup(outcome, State(), requests) == GoogleLookup(old(State()), id, addr, apiKey, reply)
    {
      if apiKey == "" {
        return Raised(MissingApiKey), [];
      }
      if id in googleSuccess {
        return Returned(GoogleResult(googleSuccess[id])), [];
      }
      if id in googleFail {
        return Returned(NoResult), [];
      }
      requests := [GoogleRequest(addr)];
      match reply {
        case GoogleRaised =>
          outcome := Raised(RequestFailed);
        case GoogleReturned(body) =>
          if body.status == "OK" {
            googleSuccess := googleSuccess[id := body];
            outcome := Returned(GoogleResult(body));
          } else {
            googleFail := googleFail + {id};
            outcome := Returned(NoResult);
          }
      }
    }

    /** `_geocode_single`: consults and writes all four directories as `SingleLookup` says. */
    method GeocodeSingle(w: WorkItem, apiKey: string, census: CensusReply, google: GoogleReply)
      returns (outcome: Outcome, requests: seq<Request>)
      modifies this
      ensures Lookup(outcome, State(), requests) == SingleLookup(old(State()), w, apiKey, census, google)
    {
      var id := w.buildingId;
      var addr := OneLineAddress(w);
      if id in censusSuccess {
        return Returned(CensusResult(censusSuccess[id])), [];
      }
      if id in censusFail {
        outcome, requests := GeocodeSingleGoogle(id, addr, apiKey, google);
        return;
      }
      match census {
        case CensusRaised =>
          outcome, requests := Returned(NoResult), [CensusRequest(addr)];
        case CensusReturned(m) =>
          if |m| > 0 {
            censusSuccess := censusSuccess[id := m];
            outcome, requests := Returned(CensusResult(m)), [CensusRequest(addr)];
          } else {
            censusFail := censusFail + {id};
            var g, gRequests := GeocodeSingleGoogle(id, addr, apiKey, google);
            outcome := if g.Raised? then Returned(NoResult) else g;
            requests := [CensusRequest(addr)] + gRequests;
          }
      }
    }
  }
}
