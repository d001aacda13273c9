/**
 * The value types of `io.py`: the travel modes and week days the routing
 * service accepts, and the `Location` record whose identifier is sanitised
 * on construction.
 */
module LocationIO {

  import opened Sequences

  /** `TRAVEL_TYPES`: the transport modes sent to the routing service. */
  datatype TravelType = Driving | PublicTransport | Walking {

    /** The literal spelling of the mode, as it appears in requests and cache file names. */
    function Name(): (s: string)
      ensures |s| > 0
      ensures s[0] in {'d', 'p', 'w'}
    {
      match this
      case Driving => "driving"
      case PublicTransport => "public_transport"
      case Walking => "walking"
    }
  }

  /** `WEEK_DAYS`: English week-day names. */
  datatype WeekDay = Monday | Tuesday | Wednesday | Thursday | Friday | Saturday | Sunday {

    /** The day number `time.strptime(name, "%A").tm_wday` gives: Monday is 0, Sunday 6. */
    function Index(): (i: nat)
      ensures i < 7
    {
      match this
      case Monday => 0
      case Tuesday => 1
      case Wednesday => 2
      case Thursday => 3
      case Friday => 4
      case Saturday => 5
      case Sunday => 6
    }

    /** The full English name, as `strftime("%A")` prints it. */
    function Name(): (s: string)
      ensures |s| > 0
      ensures '_' !in s
    {
      match this
      case Monday => "Monday"
      case Tuesday => "Tuesday"
      case Wednesday => "Wednesday"
      case Thursday => "Thursday"
      case Friday => "Friday"
      case Saturday => "Saturday"
      case Sunday => "Sunday"
    }
  }

  /** The day with a given `tm_wday` number; the inverse of `WeekDay.Index`. */
  function DayOfIndex(i: nat): (d: WeekDay)
    requires i < 7
    ensures d.Index() == i
  {
    if i == 0 then Monday
    else if i == 1 then Tuesday
    else if i == 2 then Wednesday
    else if i == 3 then Thursday
    else if i == 4 then Friday
    else if i == 5 then Saturday
    else Sunday
  }

  /** Distinct modes have distinct names; each name starts with its own letter. */
  lemma TravelTypeNameInjective(t: TravelType, u: TravelType)
    ensures t.Name()[0] == u.Name()[0] <==> t == u
  {
  }

  /** Distinct days have distinct names. */
  lemma WeekDayNameInjective(d: WeekDay, e: WeekDay)
    ensures d.Name() == e.Name() <==> d == e
  {
  }

  /** `Index` and `DayOfIndex` are inverse to each other. */
  lemma WeekDayIndexRoundTrip(d: WeekDay)
    ensures DayOfIndex(d.Index()) == d
  {
  }

  /** Membership in the character class `[a-zA-Z0-9-]` kept by sanitisation. */
  predicate IsAllowed(c: char) {
    ('a' <= c <= 'z') || ('A' <= c <= 'Z') || ('0' <= c <= '9') || c == '-'
  }

  predicate AllAllowed(s: string) {
    forall i :: 0 <= i < |s| ==> IsAllowed(s[i])
  }

  /**
   * `Location.sanitize_name_or_id`: the regular-expression substitution that
   * deletes every character outside `[a-zA-Z0-9-]`.
   */
  function Sanitize(s: string): (r: string)
    ensures |r| <= |s|
    ensures AllAllowed(r)
    ensures IsSubsequence(r, s)
    decreases |s|
  {
    if s == [] then []
    else if IsAllowed(s[0]) then [s[0]] + Sanitize(s[1..])
    else Sanitize(s[1..])
  }

  /** Exactly the allowed characters of `s` survive, each as often as it occurs in `s`. */
  lemma {:induction false} SanitizeKeepsAllowedOccurrences(s: string, c: char)
    ensures multiset(Sanitize(s))[c] == if IsAllowed(c) then multiset(s)[c] else 0
    decreases |s|
  {
    if s != [] {
      SanitizeKeepsAllowedOccurrences(s[1..], c);
      assert s == [s[0]] + s[1..];
      assert multiset(s) == multiset{s[0]} + multiset(s[1..]);
      if IsAllowed(s[0]) {
        assert multiset(Sanitize(s)) == multiset{s[0]} + multiset(Sanitize(s[1..]));
      }
    }
  }

  /** Sanitisation works character by character: it distributes over concatenation. */
  lemma {:induction false} SanitizeConcat(a: string, b: string)
    ensures Sanitize(a + b) == Sanitize(a) + Sanitize(b)
    decreases |a|
  {
    if a == [] {
      assert a + b == b;
    } else {
      assert (a + b)[0] == a[0];
      assert (a + b)[1..] == a[1..] + b;
      SanitizeConcat(a[1..], b);
    }
  }

  /** A string made only of allowed characters is returned unchanged, and only such a string is. */
  lemma {:induction false} SanitizeFixesExactlyClean(s: string)
    ensures Sanitize(s) == s <==> AllAllowed(s)
    decreases |s|
  {
    if s != [] {
      SanitizeFixesExactlyClean(s[1..]);
      if !IsAllowed(s[0]) {
        assert |Sanitize(s)| < |s|;
      }
    }
  }

  /** Sanitising twice is the same as sanitising once. */
  lemma SanitizeIdempotent(s: string)
    ensures Sanitize(Sanitize(s)) == Sanitize(s)
  {
    SanitizeFixesExactlyClean(Sanitize(s));
  }

  /** The `Location` model: its identifier, latitude and longitude. */
  datatype Location = Location(nameOrId: string, lat: real, lng: real)

  /**
   * `Location.__init__`: the identifier given is replaced by its sanitised form
   * before the record is built; latitude and longitude are kept as given.
   */
  function NewLocation(nameOrId: string, lat: real, lng: real): (l: Location)
    ensures l.nameOrId == Sanitize(nameOrId)
    ensures AllAllowed(l.nameOrId) && '_' !in l.nameOrId
    ensures IsSubsequence(l.nameOrId, nameOrId)
    ensures Sanitize(l.nameOrId) == l.nameOrId
    ensures l.lat == lat && l.lng == lng
  {
    var clean := Sanitize(nameOrId);
    SanitizeIdempotent(nameOrId);
    assert !IsAllowed('_');
    Location(clean, lat, lng)
  }
}
