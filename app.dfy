/** The `/api/air_quality` request handler: fetch the station readings,
    annotate each with its AQI category and wrap the list in a JSON envelope. */
module App {
  import opened Outcomes
  import AqiScale
  import Service

  /** One output record: `{name, lat, lon, aqi, color, level}`. */
  datatype ProcessedStation = ProcessedStation(name: string, lat: real, lon: real, aqi: int, color: string, level: string)

  /** The JSON body: `{success: true, stations}` or `{success: false, message}`. */
  datatype Body = Success(stations: seq<ProcessedStation>) | Failure(message: string)

  /** An HTTP response: its status code and JSON body. */
  datatype HttpResponse = HttpResponse(statusCode: int, body: Body)

  const OkStatus := 200
  const ErrorStatus := 500
  const FailureMessage := "Failed to fetch external data."

  /** `output` is `input` annotated entry by entry: same length and order,
      `name`, `lat`, `lon` and `aqi` copied, `color` and `level` taken from
      the classification of that entry's AQI. */
  predicate Annotates(input: seq<Service.StationReading>, output: seq<ProcessedStation>) {
    |output| == |input| &&
    forall i :: 0 <= i < |input| ==>
      output[i].name == input[i].name && output[i].lat == input[i].lat &&
      output[i].lon == input[i].lon && output[i].aqi == input[i].aqi &&
      AqiScale.Classification(output[i].color, output[i].level) == AqiScale.InterpretAqi(input[i].aqi)
  }

  /** The processing loop: one output record appended per station. */
  method ProcessStations(stationData: seq<Service.StationReading>) returns (processed: seq<ProcessedStation>)
    ensures Annotates(stationData, processed)
  {
    processed := [];
    var i := 0;
    while i < |stationData|
      invariant 0 <= i <= |stationData|
      invariant Annotates(stationData[..i], processed)
    {
      var station := stationData[i];
      var interpretation := AqiScale.InterpretAqi(station.aqi);
      processed := processed + [ProcessedStation(station.name, station.lat, station.lon, station.aqi,
                                                 interpretation.color, interpretation.level)];
      i := i + 1;
    }
    assert stationData[..i] == stationData;
  }

  /** The handler's `try`/`except` around the outcome of the provider call:
      a success envelope with status 200 when the provider returned, the
      fixed failure envelope with status 500 when it raised. */
  method Respond(outcome: Result<seq<Service.StationReading>>) returns (resp: HttpResponse)
    ensures outcome.Error? ==> resp == HttpResponse(ErrorStatus, Failure(FailureMessage))
    ensures outcome.Ok? ==> resp.statusCode == OkStatus && resp.body.Success? && Annotates(outcome.value, resp.body.stations)
  {
    match outcome
    case Error =>
      resp := HttpResponse(ErrorStatus, Failure(FailureMessage));
    case Ok(stationData) =>
      var processed := ProcessStations(stationData);
      resp := HttpResponse(OkStatus, Success(processed));
  }

  /** `air_quality_data`: ask the service for readings at the configured
      centre and respond. The provider never raises, so the response is always
      the success envelope with one annotated record per station, five in all. */
  method AirQualityData(service: Service.AirQualityService, centerLat: real, centerLon: real,
                        replies: seq<Service.Reply>, draws: seq<int>, offsets: seq<int>)
    returns (resp: HttpResponse)
    requires |replies| == |Service.TargetLocations| && Service.DrawsFit(replies, draws)
    requires Service.OffsetsFit(offsets)
    ensures resp.statusCode == OkStatus && resp.body.Success?
    ensures Annotates(service.AirQualityReadings(replies, draws, offsets), resp.body.stations)
    ensures |resp.body.stations| == 5
    ensures !service.HasKey() ==> Annotates(Service.MockReadings(offsets), resp.body.stations)
  {
    var stationData := service.GetAirQualityData(centerLat, centerLon, replies, draws, offsets);
    Service.AirQualityReadingsFallback(service, replies, draws, replies, draws, offsets);
    resp := Respond(Ok(stationData));
  }
}
