/** The data provider: readings for a fixed set of stations, taken from the
    WAQI upstream feed when an API key is configured and synthesised from
    fixed baselines otherwise or when the upstream batch raises.

    Network replies and random numbers are inputs: `replies[i]` is what the
    upstream request for target station `i` produced, `draws[i]` is the value
    `random.randint` returns if it is called while station `i` is handled,
    and `offsets[i]` is the random offset the mock generator adds to mock
    station `i`. */
module Service {
  import opened Outcomes

  /** A target location of the real-data path. Coordinates are passed through
      unchanged and never computed with. */
  datatype Location = Location(name: string, lat: real, lon: real)

  /** A station record: `{name, lat, lon, aqi}`. */
  datatype StationReading = StationReading(name: string, lat: real, lon: real, aqi: int)

  /** The `aqi` member of an upstream reply body: a JSON number, a JSON string
      such as `'-'` or `'42'`, or any other JSON value (null, list, object),
      on which Python's `int()` raises. */
  datatype AqiField = Number(n: int) | Text(s: string) | Unconvertible

  /** One upstream reply. `Raises` stands for everything that raises while the
      reply is obtained or read: a network error from `requests.get`, a body
      that is not JSON, a key missing where the code reads it. Otherwise the
      reply has an HTTP status code and the body's `status` and `data.aqi`. */
  datatype Reply = Raises | Http(statusCode: int, status: string, aqi: AqiField)

  /** The stations the real-data path queries, in query order. */
  const TargetLocations: seq<Location> := [
    Location("City Centre", -1.285, 36.820),
    Location("Eastlands", -1.300, 36.880),
    Location("Langata", -1.350, 36.780),
    Location("Westlands", -1.265, 36.790),
    Location("Gigiri", -1.210, 36.835)
  ]

  /** The mock stations with their baseline AQI, in output order. */
  const MockStations: seq<StationReading> := [
    StationReading("City Centre Station", -1.285, 36.820, 55),
    StationReading("Eastlands Monitoring", -1.300, 36.880, 120),
    StationReading("Langata Road Sensor", -1.350, 36.780, 25),
    StationReading("Westlands Area", -1.265, 36.790, 210),
    StationReading("North Suburb Monitoring (Gigiri)", -1.210, 36.835, 85)
  ]

  /** Bounds of the random offset the mock generator adds to a baseline. */
  const MaxOffset := 15
  /** The range every mock AQI is capped to. */
  const MinAqi := 0
  const MaxAqi := 500
  /** CPython's default limit on the number of digits `int()` converts from a
      string; a longer digit string makes `int()` raise `ValueError`. */
  const IntMaxStrDigits := 4300

  // ---------------------------------------------------------------------
  // Python string and integer helpers
  // ---------------------------------------------------------------------

  /** `s.isdigit()`, for ASCII text: non-empty and every character a digit. */
  predicate IsDigits(s: string) {
    |s| > 0 && forall i :: 0 <= i < |s| ==> '0' <= s[i] <= '9'
  }

  /** `int(s)` for a string of decimal digits (leading zeros allowed). */
  function DecimalValue(s: string): (n: nat)
    requires forall i :: 0 <= i < |s| ==> '0' <= s[i] <= '9'
    decreases |s|
  {
    if |s| == 0 then 0
    else DecimalValue(s[..|s| - 1]) * 10 + (s[|s| - 1] as int - '0' as int)
  }

  /** `min(500, max(0, x))`: the cap applied by the mock generator. */
  function Clamp(x: int): (y: int)
    ensures MinAqi <= y <= MaxAqi
    ensures MinAqi <= x <= MaxAqi ==> y == x
    ensures x < MinAqi ==> y == MinAqi
    ensures x > MaxAqi ==> y == MaxAqi
  {
    if x < MinAqi then MinAqi else if x > MaxAqi then MaxAqi else x
  }

  // ---------------------------------------------------------------------
  // The per-station rule of the real-data path
  // ---------------------------------------------------------------------

  /** The reply passed the success test: HTTP 200 and `status == 'ok'`. */
  predicate IsOk(r: Reply) {
    r.Http? && r.statusCode == 200 && r.status == "ok"
  }

  /** A successful reply whose AQI is a string that is not all digits: the
      upstream feed signals "no data" for the point. */
  predicate NoData(r: Reply) {
    IsOk(r) && r.aqi.Text? && !IsDigits(r.aqi.s)
  }

  /** Reading the reply raises: the reply itself raises, or it passed the
      success test and its AQI is one `int()` rejects (a JSON value that is
      neither number nor string, or a digit string over the digit limit). */
  predicate RaisesOnRead(r: Reply) {
    r.Raises? ||
    (IsOk(r) && (r.aqi.Unconvertible? || (r.aqi.Text? && IsDigits(r.aqi.s) && |r.aqi.s| > IntMaxStrDigits)))
  }

  /** A reply that was received but did not pass the success test. */
  predicate Failed(r: Reply) {
    r.Http? && !IsOk(r)
  }

  /** The random value drawn for station `i` is one `random.randint` can
      return: in [20,150] after a "no data" reply, in [50,150] after a failed
      reply; no value is drawn otherwise. */
  predicate DrawFits(r: Reply, draw: int) {
    (NoData(r) ==> 20 <= draw <= 150) && (Failed(r) ==> 50 <= draw <= 150)
  }

  /** The random draws for a batch of replies all fit. */
  predicate DrawsFit(replies: seq<Reply>, draws: seq<int>) {
    |replies| == |draws| && forall i :: 0 <= i < |draws| ==> DrawFits(replies[i], draws[i])
  }

  /** The AQI recorded for one station, or `Error` when handling the reply
      raises (which aborts the whole batch). */
  function StationAqi(reply: Reply, draw: int): Result<int> {
    match reply
    case Raises => Error
    case Http(code, status, field) =>
      if code == 200 && status == "ok" then
        match field
        case Text(s) =>
          if !IsDigits(s) then Ok(draw)
          else if |s| > IntMaxStrDigits then Error
          else Ok(DecimalValue(s))
        case Number(n) => Ok(n)
        case Unconvertible => Error
      else Ok(draw)
  }

  /** The record of a station whose AQI is known. */
  function Reading(loc: Location, aqi: int): StationReading {
    StationReading(loc.name, loc.lat, loc.lon, aqi)
  }

  /** What `fetch_from_waqi` returns for a batch of replies: `Error` when any
      station raises, else one record per target location, in order. */
  function WaqiReadings(replies: seq<Reply>, draws: seq<int>): Result<seq<StationReading>>
    requires |replies| == |TargetLocations| && |draws| == |TargetLocations|
  {
    if exists i :: 0 <= i < |TargetLocations| && StationAqi(replies[i], draws[i]).Error? then Error
    else Ok(seq(|TargetLocations|, i requires 0 <= i < |TargetLocations| =>
                Reading(TargetLocations[i], StationAqi(replies[i], draws[i]).value)))
  }

  /** What `get_mock_data` returns: each mock station's baseline plus its
      offset, capped to [0,500]. */
  function MockReadings(offsets: seq<int>): seq<StationReading>
    requires |offsets| == |MockStations|
  {
    seq(|MockStations|, i requires 0 <= i < |MockStations| =>
        MockStations[i].(aqi := Clamp(MockStations[i].aqi + offsets[i])))
  }

  /** The offsets are ones `random.randint(-15, 15)` can return. */
  predicate OffsetsFit(offsets: seq<int>) {
    |offsets| == |MockStations| && forall i :: 0 <= i < |offsets| ==> -MaxOffset <= offsets[i] <= MaxOffset
  }

  // ---------------------------------------------------------------------
  // The service object
  // ---------------------------------------------------------------------

  /** `AirQualityService`: holds the API key it was constructed with. */
  class AirQualityService {
    const apiKey: Option<string>

    constructor (apiKey: Option<string>)
      ensures this.apiKey == apiKey
    {
      this.apiKey := apiKey;
    }

    /** Python truthiness of the key: neither `None` nor the empty string. */
    predicate HasKey() {
      apiKey.Some? && apiKey.value != ""
    }

    /** What `get_air_quality_data` returns. */
    function AirQualityReadings(replies: seq<Reply>, draws: seq<int>, offsets: seq<int>): seq<StationReading>
      requires |replies| == |TargetLocations| && |draws| == |TargetLocations| && |offsets| == |MockStations|
    {
      if !HasKey() then MockReadings(offsets)
      else match WaqiReadings(replies, draws)
        case Ok(stations) => stations
        case Error => MockReadings(offsets)
    }

    /** `get_air_quality_data`: the real-data path when a key is present, the
        mock path when it is not or when the real-data path raises. It never
        raises, and with no key the replies play no part in the result. */
    method GetAirQualityData(lat: real, lon: real, replies: seq<Reply>, draws: seq<int>, offsets: seq<int>)
      returns (stations: seq<StationReading>)
      requires |replies| == |TargetLocations| && DrawsFit(replies, draws)
      requires OffsetsFit(offsets)
      ensures stations == AirQualityReadings(replies, draws, offsets)
      ensures !HasKey() ==> stations == MockReadings(offsets)
      ensures HasKey() && WaqiReadings(replies, draws).Error? ==> stations == MockReadings(offsets)
      ensures HasKey() && WaqiReadings(replies, draws).Ok? ==> stations == WaqiReadings(replies, draws).value
    {
      if HasKey() {
        var fetched := FetchFromWaqi(lat, lon, replies, draws);
        match fetched
        case Ok(results) =>
          stations := results;
        case Error =>
          stations := GetMockData(offsets);
      } else {
        stations := GetMockData(offsets);
      }
    }

    /** `fetch_from_waqi`: one upstream request per target location, in order;
        `lat` and `lon` are ignored. A reply that raises aborts the batch. */
    method FetchFromWaqi(lat: real, lon: real, replies: seq<Reply>, draws: seq<int>)
      returns (r: Result<seq<StationReading>>)
      requires |replies| == |TargetLocations| && DrawsFit(replies, draws)
      ensures r == WaqiReadings(replies, draws)
      ensures r.Error? <==> exists i :: 0 <= i < |replies| && StationAqi(replies[i], draws[i]).Error?
      ensures r.Ok? ==> |r.value| == |TargetLocations|
    {
      var results: seq<StationReading> := [];
      var i := 0;
      while i < |TargetLocations|
        invariant 0 <= i <= |TargetLocations|
        invariant |results| == i
        invariant forall j :: 0 <= j < i ==> StationAqi(replies[j], draws[j]).Ok?
        invariant forall j :: 0 <= j < i ==> results[j] == Reading(TargetLocations[j], StationAqi(replies[j], draws[j]).value)
      {
        var loc := TargetLocations[i];
        match replies[i] {
          case Raises =>
            assert StationAqi(replies[i], draws[i]).Error?;
            return Error;
          case Http(code, status, field) =>
            if code == 200 && status == "ok" {
              var aqi: int;
              match field {
                case Text(s) =>
                  if !IsDigits(s) {
                    aqi := draws[i];
                  } else if |s| > IntMaxStrDigits {
                    assert StationAqi(replies[i], draws[i]).Error?;
                    return Error;
                  } else {
                    aqi := DecimalValue(s);
                  }
                case Number(n) =>
                  aqi := n;
                case Unconvertible =>
                  assert StationAqi(replies[i], draws[i]).Error?;
                  return Error;
              }
              results := results + [StationReading(loc.name, loc.lat, loc.lon, aqi)];
            } else {
              results := results + [StationReading(loc.name, loc.lat, loc.lon, draws[i])];
            }
        }
        i := i + 1;
      }
      assert results == WaqiReadings(replies, draws).value;
      r := Ok(results);
    }

    /** `get_mock_data`: starts from the baselines and updates each station's
        AQI in place: add the offset, raise to at least 0, cap at 500. */
    method GetMockData(offsets: seq<int>) returns (stations: seq<StationReading>)
      requires OffsetsFit(offsets)
      ensures stations == MockReadings(offsets)
      ensures |stations| == |MockStations|
      ensures forall i :: 0 <= i < |stations| ==>
        MinAqi <= stations[i].aqi <= MaxAqi &&
        MockStations[i].aqi - MaxOffset <= stations[i].aqi <= MockStations[i].aqi + MaxOffset
    {
      stations := MockStations;
      var i := 0;
      while i < |stations|
        invariant 0 <= i <= |stations| == |MockStations|
        invariant forall j :: 0 <= j < i ==> stations[j] == MockStations[j].(aqi := Clamp(MockStations[j].aqi + offsets[j]))
        invariant forall j :: i <= j < |stations| ==> stations[j] == MockStations[j]
      {
        var aqi := stations[i].aqi + offsets[i];
        if aqi < 0 { aqi := 0; }
        if aqi > 500 { aqi := 500; }
        stations := stations[i := stations[i].(aqi := aqi)];
        i := i + 1;
      }
      MockReadingsBounds(offsets);
    }
  }

  // ---------------------------------------------------------------------
  // Properties of the provider
  // ---------------------------------------------------------------------

  /** The three cases of the per-station rule. Handling raises exactly when
      reading the reply raises; otherwise a "no data" reply gives a value in [20,150], a
      successful reply gives `int(aqi)` unchanged, and a failed reply gives a
      value in [50,150]. */
  lemma StationAqiCases(reply: Reply, draw: int)
    requires DrawFits(reply, draw)
    ensures StationAqi(reply, draw).Error? <==> RaisesOnRead(reply)
    ensures NoData(reply) ==> StationAqi(reply, draw).Ok? && 20 <= StationAqi(reply, draw).value <= 150
    ensures IsOk(reply) && reply.aqi.Number? ==> StationAqi(reply, draw) == Ok(reply.aqi.n)
    ensures IsOk(reply) && reply.aqi.Text? && IsDigits(reply.aqi.s) && |reply.aqi.s| <= IntMaxStrDigits ==>
      StationAqi(reply, draw) == Ok(DecimalValue(reply.aqi.s))
    ensures Failed(reply) ==> StationAqi(reply, draw).Ok? && 50 <= StationAqi(reply, draw).value <= 150
  {
  }

  /** `int()` ignores leading zeros: `int('0' + s) == int(s)`. */
  lemma {:induction false} DecimalValueLeadingZero(s: string)
    requires forall i :: 0 <= i < |s| ==> '0' <= s[i] <= '9'
    ensures DecimalValue("0" + s) == DecimalValue(s)
  {
    if |s| == 0 {
      assert ("0" + s)[..0] == "";
    } else {
      var init := s[..|s| - 1];
      DecimalValueLeadingZero(init);
      assert ("0" + s)[..|"0" + s| - 1] == "0" + init;
    }
  }

  /** The real-data path returns one record per target location, in target
      order, with the target's name and coordinates. */
  lemma WaqiReadingsShape(replies: seq<Reply>, draws: seq<int>)
    requires |replies| == |TargetLocations| && |draws| == |TargetLocations|
    ensures WaqiReadings(replies, draws).Ok? ==>
      var rs := WaqiReadings(replies, draws).value;
      |rs| == |TargetLocations| == 5 &&
      forall i :: 0 <= i < |rs| ==>
        rs[i].name == TargetLocations[i].name && rs[i].lat == TargetLocations[i].lat &&
        rs[i].lon == TargetLocations[i].lon && Ok(rs[i].aqi) == StationAqi(replies[i], draws[i])
  {
  }

  /** One station's outcome does not change another station's record: when
      two batches both complete and agree on station `i`'s reply and draw,
      they agree on station `i`'s record, whatever the other replies were. */
  lemma StationIsolation(replies: seq<Reply>, draws: seq<int>, replies': seq<Reply>, draws': seq<int>, i: nat)
    requires |replies| == |draws| == |replies'| == |draws'| == |TargetLocations|
    requires i < |TargetLocations| && replies[i] == replies'[i] && draws[i] == draws'[i]
    requires WaqiReadings(replies, draws).Ok? && WaqiReadings(replies', draws').Ok?
    ensures WaqiReadings(replies, draws).value[i] == WaqiReadings(replies', draws').value[i]
  {
  }

  /** A failed reply does not stop the batch: when no reply raises, each
      successful numeric reply is recorded as is, even if the others failed. */
  lemma FailedStationDoesNotAbort(replies: seq<Reply>, draws: seq<int>)
    requires |replies| == |draws| == |TargetLocations|
    requires forall j :: 0 <= j < |replies| ==> !RaisesOnRead(replies[j])
    ensures WaqiReadings(replies, draws).Ok?
    ensures forall j :: 0 <= j < |replies| && IsOk(replies[j]) && replies[j].aqi.Number? ==>
      WaqiReadings(replies, draws).value[j].aqi == replies[j].aqi.n
  {
  }

  /** The provider does not cap upstream values: with a key and an upstream
      AQI of 999 at every station, every returned station has AQI 999. */
  lemma UpstreamAqiNotClamped(s: AirQualityService, draws: seq<int>, offsets: seq<int>)
    requires s.HasKey() && |draws| == |TargetLocations| && OffsetsFit(offsets)
    ensures var replies := seq(|TargetLocations|, _ => Http(200, "ok", Number(999)));
      forall i :: 0 <= i < |TargetLocations| ==> s.AirQualityReadings(replies, draws, offsets)[i].aqi == 999
  {
  }

  /** The mock path returns the five mock stations in baseline order with
      names and coordinates unchanged; each AQI is within 15 of its baseline
      and in [0,500]. */
  lemma MockReadingsBounds(offsets: seq<int>)
    requires OffsetsFit(offsets)
    ensures |MockReadings(offsets)| == |MockStations| == 5
    ensures forall i :: 0 <= i < |MockStations| ==>
      var m := MockReadings(offsets)[i];
      m.name == MockStations[i].name && m.lat == MockStations[i].lat && m.lon == MockStations[i].lon &&
      MinAqi <= m.aqi <= MaxAqi && MockStations[i].aqi - MaxOffset <= m.aqi <= MockStations[i].aqi + MaxOffset
  {
  }

  /** Every baseline is at least 15 away from both ends of [0,500], so the cap
      never changes a mock value: each is exactly baseline plus offset. */
  lemma MockCapInactive(offsets: seq<int>)
    requires OffsetsFit(offsets)
    ensures forall i :: 0 <= i < |MockStations| ==>
      MockReadings(offsets)[i].aqi == MockStations[i].aqi + offsets[i]
  {
  }

  /** With no key the result is the mock data whatever the replies were: the
      upstream is never consulted. With a key, a batch that raises is
      replaced by the full mock data. The result always has five stations. */
  lemma AirQualityReadingsFallback(s: AirQualityService, replies: seq<Reply>, draws: seq<int>, replies': seq<Reply>, draws': seq<int>, offsets: seq<int>)
    requires |replies| == |draws| == |replies'| == |draws'| == |TargetLocations|
    requires OffsetsFit(offsets)
    ensures !s.HasKey() ==> s.AirQualityReadings(replies, draws, offsets) == s.AirQualityReadings(replies', draws', offsets) == MockReadings(offsets)
    ensures s.HasKey() && (exists i :: 0 <= i < |replies| && RaisesOnRead(replies[i])) ==>
      s.AirQualityReadings(replies, draws, offsets) == MockReadings(offsets)
    ensures |s.AirQualityReadings(replies, draws, offsets)| == 5
  {
  }
}
