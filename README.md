# Real-time Air Quality Monitor — Dafny model

This project models the backend of an air-quality dashboard. The backend has two parts. The **data provider** (`AirQualityService`) returns one AQI reading for each monitoring station near Nairobi. It takes them from the WAQI feed when an API key is configured. It uses synthetic mock data when there is no key, or when the upstream batch raises. The **classifier** (`interpret_aqi`) maps an AQI value to the colour and health level of its category on the US EPA AQI scale. The `/api/air_quality` handler ties the two together: it annotates every reading with its category and wraps the list in a JSON success envelope. If anything raises, it returns the fixed failure envelope with status 500.

Modules, one per component:

- `Outcomes` (`outcomes.dfy`): `Option` stands for Python's `None`, and `Result` (`Ok(value)` or `Error`) stands for a call that returns or raises.
- `AqiScale` (`aqi_scale.dfy`): `InterpretAqi`, which is the if/elif chain of the source. It is checked against `Categories` and `UpperBounds`, a separate table of the six EPA categories.
- `Service` (`services/air_quality_service.py`, in `service.dfy`): the class `AirQualityService` holds a constant `apiKey`. Its methods `GetAirQualityData`, `FetchFromWaqi` and `GetMockData` are imperative, with the source's loops. Each is proved equal to a specification function (`AirQualityReadings`, `WaqiReadings`, `MockReadings`). The properties are lemmas about those functions.
- `App` (`app.py`, in `app.dfy`): the processing loop `ProcessStations`, the `try`/`except` envelope `Respond`, and the whole handler `AirQualityData`.

The network and randomness are inputs:

- `replies[i]` is the upstream reply for target station `i`.
  - `Raises` covers anything that raises while the reply is fetched or read: a network error, a body that is not JSON, or a missing key.
  - `Http(statusCode, status, aqi)` is a reply that was received. Its `aqi` field is a `Number`, a `Text`, or an `Unconvertible` value such as JSON null, on which `int()` raises.
- `draws[i]` is the value `random.randint` returns if it is called while station `i` is handled.
- `offsets[i]` is the mock generator's random offset for mock station `i`.

The `requires` clauses limit these values to what `randint` can return: [20,150] after a "no data" reply, [50,150] after a failed reply, and [-15,15] for an offset.

What the code does, where a reader might expect otherwise:

- **An exception aborts the whole batch.** The comment at services/air_quality_service.py:73-74 says a failing station falls back to mock data for that station only. That holds only for a received reply that fails the `status_code == 200 and status == 'ok'` test: it gets the [50,150] substitute. An exception while one station is handled leaves `fetch_from_waqi`. `get_air_quality_data` then catches it and replaces **all** stations with mock data. This happens on a network error, a non-JSON body, a missing key, or an `aqi` value that `int()` rejects, including a digit string longer than CPython's default limit of 4300 digits for `int()` (`AirQualityReadingsFallback`, `StationAqiCases`).
- **The real-data path does not cap AQI.** Only the mock path caps its values to [0,500] (services/air_quality_service.py:98-99). An upstream value is recorded as `int(aqi)`, unchanged, so the provider can return values outside [0,500] (`UpstreamAqiNotClamped`).
- **The two station lists differ.** The target list and the mock list share coordinates but not names ("City Centre" against "City Centre Station").
- **The cap never applies.** Every mock baseline is at least 15 from both ends of [0,500], so the mock cap never changes a value (`MockCapInactive`).
- **The failure envelope is unreachable.** The modelled provider never raises, so with it the handler always returns the success envelope (`AirQualityData`). `Respond` models the failure branch from the provider's outcome.

## Model

| member | source | states |
|---|---|---|
| `AqiScale.InterpretAqi` | services/air_quality_service.py:106-119 | Every integer maps to one of the six categories of the EPA table. |
| `AqiScale.InterpretAqiBands` | services/air_quality_service.py:108-119 | The classifier returns category k if and only if the AQI lies in band k. The upper bounds 50/100/150/200/300 are inclusive, anything at most 50 (negatives too) is Good, and anything above 300 is Hazardous. |
| `AqiScale.BandsPartition` | services/air_quality_service.py:108-119 | The bands of the threshold chain cover every integer and do not overlap. |
| `AqiScale.CategoriesDistinct` | services/air_quality_service.py:109-119 | No two categories share a colour or a level, so a result names exactly one tier. |
| `AqiScale.InterpretAqiMonotone` | services/air_quality_service.py:108-119 | A larger AQI never gets a less severe category. |
| `AqiScale.BoundaryValues` | services/air_quality_service.py:108-119 | Each upper bound belongs to its own category and the next value to the next one; 0 is Good and 500 is Hazardous. |
| `Service.Clamp` | services/air_quality_service.py:98-99 | The cap gives a value in [0,500]: the input when it is already in range, else the nearer end. |
| `Service.StationAqiCases` | services/air_quality_service.py:58-80 | Handling a reply raises exactly when the reply raises, or an ok reply's AQI is rejected by `int()`: a value that is neither number nor string, or a digit string over 4300 digits. Otherwise a non-digit string AQI gives [20,150], a numeric AQI or digit string within the limit gives `int(aqi)`, and a failed reply gives [50,150]. |
| `Service.DecimalValueLeadingZero` | services/air_quality_service.py:64 | `int()` of a digit string ignores leading zeros: `int('0' + s) == int(s)`. |
| `Service.UpstreamAqiNotClamped` | services/air_quality_service.py:16-18 | With a key and an upstream AQI of 999 at every station, the provider returns 999 for every station: the real-data path (lines 63-64) does not cap. |
| `Service.WaqiReadingsShape` | services/air_quality_service.py:43-82 | A completed batch has five records in target order, with the target's name, lat and lon and the per-station AQI. |
| `Service.StationIsolation` | services/air_quality_service.py:52-80 | Two completed batches that agree on station i's reply and draw agree on station i's record, whatever the other replies were. |
| `Service.FailedStationDoesNotAbort` | services/air_quality_service.py:72-80 | When no reply raises, the batch completes, and every ok numeric reply is recorded as is, even if other stations failed. |
| `Service.MockReadingsBounds` | services/air_quality_service.py:89-104 | The mock data is the five mock stations in baseline order, with names and coordinates unchanged. Each AQI is in [0,500] and within 15 of its baseline. |
| `Service.MockCapInactive` | services/air_quality_service.py:89-99 | Each mock AQI is exactly the baseline plus the offset. |
| `Service.AirQualityReadingsFallback` | services/air_quality_service.py:16-24 | With no key, the result is the mock data and does not depend on the replies. With a key, a batch in which reading any reply raises gives the full mock data. The result always has five stations. |
| `Service.AirQualityService.constructor` | services/air_quality_service.py:7-8 | The service keeps the key it is given. |
| `Service.AirQualityService.GetAirQualityData` | services/air_quality_service.py:11-24 | Returns the fetched batch when there is a key and the batch completes, and the mock data otherwise. It never raises. |
| `Service.AirQualityService.FetchFromWaqi` | services/air_quality_service.py:26-82 | The loop returns `Error` exactly when some station raises. Otherwise it returns the five per-station records in target order, and `lat`/`lon` are ignored. |
| `Service.AirQualityService.GetMockData` | services/air_quality_service.py:84-104 | The in-place update loop yields the capped baseline-plus-offset values: five stations, each AQI in [0,500] and within 15 of its baseline. |
| `App.ProcessStations` | app.py:31-41 | The output has the input's length and order. It copies name, lat, lon and aqi, and takes color and level from `InterpretAqi` of that entry's AQI. |
| `App.Respond` | app.py:21-47 | A provider that raises gives status 500 with `{success: false, message: 'Failed to fetch external data.'}`. Otherwise the result is status 200 with `{success: true, stations}` annotated as above. |
| `App.AirQualityData` | app.py:19-47 | The endpoint always answers 200 with a success envelope of five annotated stations. With no key, these are the annotated mock data. |

## Left out

- Network I/O: `requests.get`, `response.json()` and the formatting of the WAQI URL with the key. The reply to each request is an input (`Reply`), and the URL template field is not modelled.
- True randomness: `random.randint` results are inputs whose ranges the `requires` clauses state.
- `time.sleep(0.5)` and the `print` diagnostics: they do not affect results.
- Flask routing, `render_template`, `jsonify`, the `index` page and the app's start-up: framework glue. The JSON body and status code are modelled as `HttpResponse`.
- config.py is not part of this model. Its key and default centre become arguments: the service's `apiKey` and the handler's `centerLat`/`centerLon`. The browser client static/js/map.js is not part of this model either.
- Coordinates are `real` values that are passed through and never computed with. Python floats are not modelled.
- Service.StationAqiCases: JSON numbers that Python parses as floats are not modelled; `Number` carries an integer. For a finite float `int()` truncates toward zero, and it raises on `1e400` (infinity) and `NaN`.
- Service.StationAqiCases: the 4300-digit limit is CPython's default (`sys.set_int_max_str_digits` can change it, and releases before the 2022 security fixes have none). The model fixes it at 4300.
- Service.StationAqiCases: `isdigit` is modelled for ASCII digits only. A string of other Unicode digits counts as "no data" in the model, but Python would pass it to `int()`, which may accept or reject it.
- Service.StationAqiCases: only two kinds of reply body are modelled: one whose keys are all present where the code reads them, and one that raises (`Raises`). A 200 reply that lacks `status`, or an ok reply that lacks `data.aqi`, is modelled as `Raises`, which is what Python does.
- Exceptions that are not `Exception` subclasses (such as `KeyboardInterrupt`) pass through both `except` clauses in Python. They are not modelled.
