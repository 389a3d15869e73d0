# Travel agent API: a Dafny model of its deterministic core

The travel-agent service answers free-text travel queries with a planner agent.
The planner can hand off to a flight specialist or a hotel specialist. Around
those agents sit three mock lookup tools and one HTTP handler. This project
models the parts of `fastapi_travel_agent.py` whose behaviour the code itself
fixes:

- the hotel search, a price-ceiling filter over a fixed table of three hotels;
- the flight search, a constant list of three flights;
- the weather forecast, a lookup of the most likely condition and the
  temperature range of a city;
- the response classification of the `/query` handler, which looks at which
  attributes the agent's final output has, chooses `flight`, `hotel`,
  `travel_plan` or `general`, and builds the response envelope.

Modules:

- `Schemas` (`schemas.dfy`) holds the pydantic models `FlightRecommendation`,
  `HotelRecommendation`, `TravelPlan` and `TravelResponse`. It also holds the
  envelope invariant `WellFormed`: `responseType` names the kind of `data`, and
  the message is the fixed one for that kind.
- `Tools` (`tools.dfy`) holds the three tools, each a function over a
  constant table.
- `Endpoint` (`endpoint.dfy`) holds the classification chain, the validation
  of `data`, and the handler's mapping of every `Exception` to HTTP 500.

Representation choices:

- Prices are integer cents. A hotel costs 19999, 14950 or 34999 cents. The
  optional `max_price` ceiling is an `Option<int>` in cents.
- Weather probabilities are integer percentages.
- Each city's conditions are a sequence in the dictionary's insertion order.
  Python's `max(conditions, key=conditions.get)` keeps the first maximal key
  it meets, and `MostLikely` does the same on ties.
- The agent run is an input. `RunOutcome` is either a final output, or an
  `Exception` raised by the run.
- A final output is an instance of one of the three schemas, or another
  object whose attribute probes and `str()` do not raise. Such an object is
  given by its attribute names and its `str()` text.
- If another object has one of the probed attributes, the handler puts the
  object itself into `TravelResponse.data`. The model takes as a premise that
  such an object is none of `FlightRecommendation`, `HotelRecommendation`,
  `TravelPlan` or `str`, so that pydantic's validation of that union raises.
  The raise happens inside the `try`, so the answer is an HTTP 500. Under
  that premise every successful reply satisfies `WellFormed`. In practice
  `final_output` is a schema instance, because every agent declares an
  `output_type` (fastapi_travel_agent.py:165, 183, 210).

## Model

| member | source | states |
|---|---|---|
| `Tools.FilterAffordable` | fastapi_travel_agent.py:142-143 | every kept hotel has `price_per_night <= max_price`; a record is in the result iff it is in the input and within the ceiling; the result is a subsequence of the input (order kept) holding as many records as the input has within the ceiling |
| `Tools.FilterAffordableUnique` | fastapi_travel_agent.py:121-143 | those four facts determine the result: any order-preserving selection of only affordable records, as many as there are, is exactly the filter's output, so nothing is added, dropped or reordered |
| `Tools.FilterAffordableAll` | fastapi_travel_agent.py:142-145 | when every record is within the ceiling, filtering returns the sequence unchanged |
| `Tools.FilterAffordableIdempotent` | fastapi_travel_agent.py:143 | filtering an already filtered list with the same ceiling changes nothing |
| `Tools.SearchHotels` | fastapi_travel_agent.py:118-147 | with no `max_price` the whole table is returned unchanged; with one, every result is within it, the result holds exactly the table's records within it, and they keep table order |
| `Tools.SearchHotelsIgnoresCityAndDates` | fastapi_travel_agent.py:119-145 | the result depends on `max_price` only, not on city, check-in or check-out |
| `Tools.SearchHotelsGenerousCeiling` | fastapi_travel_agent.py:121-143 | a ceiling at or above the dearest room (349.99) returns the full table |
| `Tools.SearchHotelsUnder300` | fastapi_travel_agent.py:121-143 | a 300.00 ceiling keeps City Center Hotel and Riverside Inn, in that order, and drops Luxury Palace |
| `Tools.SearchFlights` | fastapi_travel_agent.py:89-116 | three options, SkyWays and OceanAir direct, MountainJet connecting, equal to the fixed table |
| `Tools.SearchFlightsIgnoresArguments` | fastapi_travel_agent.py:90-116 | any two calls give the same list, whatever origin, destination and date are passed |
| `Tools.MostLikely` | fastapi_travel_agent.py:75 | the chosen condition has probability at least that of every condition, and strictly more than every earlier one (first maximum wins a tie) |
| `Tools.WeatherTablesAgree` | fastapi_travel_agent.py:63-84 | the cities with weather data are exactly the cities with a temperature range, and each has three conditions |
| `Tools.GetWeatherForecast` | fastapi_travel_agent.py:60-87 | a forecast is produced iff the city is in the table; it names a condition of that city with maximal probability and that city's own temperature range (never the `15-25°C` fallback); any other city gets the not-available answer for that city |
| `Tools.ForecastExamples` | fastapi_travel_agent.py:63-87 | New York is rainy at 15-25°C, Paris is sunny at 12-22°C, Berlin is not available |
| `Endpoint.ResponseTypeOf` | fastapi_travel_agent.py:265-295 | priority: `airline` gives flight whatever else is present; hotel iff no `airline` but both `name` and `amenities`; travel_plan iff neither of those but `destination`; general iff none of them |
| `Endpoint.SchemaOutputsClassified` | fastapi_travel_agent.py:31-51 | given the schemas' fields, a FlightRecommendation is flight, a HotelRecommendation is hotel and a TravelPlan is travel_plan |
| `Endpoint.ValidateData` | fastapi_travel_agent.py:53-57 | for an output the chain sent to a schema branch, the `data` union accepts it iff it is one of the three schema instances, and the payload it accepts has the kind the `hasattr` chain chose for that output |
| `Endpoint.ProcessTravelQuery` | fastapi_travel_agent.py:258-301 | a raising run becomes HTTP 500 with detail `Error processing travel query: ` plus the error; every error reply is 500; every successful reply comes from a completed run, has `success` true, a kind equal to the chain's choice and matching its payload, and that kind's fixed message; a schema output always succeeds; another object succeeds iff the chain classifies it as general |
| `Endpoint.SchemaOutputsSucceed` | fastapi_travel_agent.py:265-287 | a schema output is returned unchanged as the payload of its own kind with that kind's message |
| `Endpoint.OtherOutputs` | fastapi_travel_agent.py:265-301 | a non-schema output without the probed attributes gets kind general with its string form as data; one with them ends as HTTP 500 |

## Left out

- `Runner.run`, the three agent definitions, handoffs and LLM calls
  (fastapi_travel_agent.py:150-211, 260) are SDK behaviour. The model does
  not say which agent answers or with what tool arguments. The final output,
  or the exception, is an input to `ProcessTravelQuery`.
- The input guardrail of gaurdrail_input.py is left out. Evaluating it and
  raising the tripwire exception are done by the SDK.
- Rejecting an unknown tool name is done inside the SDK; this file has no
  such check.
- v1_basic_agent.py and test_fastapi_agent.py are an SDK call and an HTTP
  client script whose outcomes depend on the LLM.
- Loading environment variables, the configuration check and client
  construction (fastapi_travel_agent.py:12-25) are process setup.
- The FastAPI app, routes, CORS, uvicorn and the static `/`, `/health` and
  `/agents` payloads (fastapi_travel_agent.py:214-245, 303-331) are
  transport.
- The JSON text from `json.dumps` and the forecast sentences are not
  modelled. The tools return the selected records, or a `Forecast` value
  holding the chosen condition and range.
- Floating point is not modelled. Prices are exact cents, so a `max_price`
  that is not a whole number of cents, or NaN, is not modelled.
- `Endpoint.ProcessTravelQuery`: the detail text of the pydantic validation
  error is pydantic's own. The model uses the fixed stand-in
  `InvalidDataError`.
- A subclass of one of the schemas that carries extra attributes is not
  modelled. Such an output would pass validation as its parent schema.
- `str()` of a schema instance is not modelled. It is never used, because
  every schema instance is classified before the general branch
  (`Endpoint.SchemaOutputsClassified`).
- `Endpoint.ProcessTravelQuery`: `Raised` stands for subclasses of
  `Exception` only, the ones the `except Exception` at
  fastapi_travel_agent.py:297 catches. A `BaseException` that is not an
  `Exception` (`asyncio.CancelledError`, `KeyboardInterrupt`, `SystemExit`)
  leaves the handler without an HTTP 500; that path is not modelled.
- `Endpoint.OtherOutputs` and `Endpoint.ProcessTravelQuery`: outputs that
  pydantic's lax validation would accept as a union member are not
  modelled. Examples are a `str` subclass with an `airline` attribute, or a
  mapping with a schema's keys and a probed attribute. For such an output
  the source can answer 200 with a `response_type` that does not match
  `data`, where the model answers HTTP 500.
- `Endpoint.OtherOutputs` and `Endpoint.ProcessTravelQuery`: outputs whose
  `str()` raises, or whose lookup of a probed attribute raises something
  other than `AttributeError` (which `hasattr` does not swallow), are not
  modelled. Both run inside the `try`, so in the source such an output ends
  as HTTP 500 through fastapi_travel_agent.py:297-301.
