/**
 * What the POST /query handler (process_travel_query) does once the agent run
 * has ended: inspect `final_output` by attribute presence, choose the kind of
 * response, and build the envelope; any `Exception` becomes an HTTP 500.
 * The agent run itself is an input here.
 */
module Endpoint {
  import opened Schemas

  /**
   * The `final_output` of an agent run: an instance of one of the three
   * output schemas, or some other object whose attribute probes and `str()`
   * do not raise, known by the attribute names it has and by its string form.
   */
  datatype Output =
    | FlightOutput(flight: FlightRecommendation)
    | HotelOutput(hotel: HotelRecommendation)
    | PlanOutput(plan: TravelPlan)
    | OtherOutput(attributes: set<string>, text: string)

  /** How the agent run ended: with a final output, or by raising an `Exception`. */
  datatype RunOutcome =
    | Completed(finalOutput: Output)
    | Raised(error: string)

  /** What the handler hands back to the web framework. */
  datatype Reply =
    | Ok(response: TravelResponse)
    | HttpError(statusCode: int, detail: string)

  const ErrorPrefix := "Error processing travel query: "

  /**
   * Stands for the text of the validation error raised when `data` is none
   * of the three schemas and not a string; its exact wording is pydantic's.
   */
  const InvalidDataError := "data is not a FlightRecommendation, HotelRecommendation, TravelPlan or str"

  /** The attribute names an output has: a schema instance has its fields. */
  function Attributes(o: Output): set<string> {
    match o
    case FlightOutput(_) =>
      {"airline", "departure_time", "arrival_time", "price", "direct_flight", "recommendation_reason"}
    case HotelOutput(_) =>
      {"name", "location", "price_per_night", "amenities", "recommendation_reason"}
    case PlanOutput(_) =>
      {"destination", "duration_days", "budget", "activities", "notes"}
    case OtherOutput(attributes, _) => attributes
  }

  /** Python's `hasattr(o, attr)`. */
  predicate HasAttr(o: Output, attr: string) {
    attr in Attributes(o)
  }

  /**
   * The if/elif chain of the handler: `airline` wins over everything, a hotel
   * needs both `name` and `amenities`, then `destination` makes a travel
   * plan, and anything else is general.
   */
  function ResponseTypeOf(o: Output): (t: string)
    ensures t in {"flight", "hotel", "travel_plan", "general"}
    ensures t == "flight" <==> HasAttr(o, "airline")
    ensures t == "hotel" <==>
      !HasAttr(o, "airline") && HasAttr(o, "name") && HasAttr(o, "amenities")
    ensures t == "travel_plan" <==>
      !HasAttr(o, "airline") && !(HasAttr(o, "name") && HasAttr(o, "amenities")) && HasAttr(o, "destination")
    ensures t == "general" <==>
      !HasAttr(o, "airline") && !(HasAttr(o, "name") && HasAttr(o, "amenities")) && !HasAttr(o, "destination")
  {
    if HasAttr(o, "airline") then "flight"
    else if HasAttr(o, "name") && HasAttr(o, "amenities") then "hotel"
    else if HasAttr(o, "destination") then "travel_plan"
    else "general"
  }

  /** Each schema is recognised as its own kind, so none of them is "general". */
  lemma SchemaOutputsClassified(f: FlightRecommendation, h: HotelRecommendation, p: TravelPlan)
    ensures ResponseTypeOf(FlightOutput(f)) == "flight"
    ensures ResponseTypeOf(HotelOutput(h)) == "hotel"
    ensures ResponseTypeOf(PlanOutput(p)) == "travel_plan"
  {
  }

  /**
   * Validation of `data` against `Union[FlightRecommendation,
   * HotelRecommendation, TravelPlan, str]` for an output the chain sent to a
   * schema branch, where the envelope is built from the output object
   * itself: a schema instance is accepted as it is, any other such object
   * (taken to be no `str`) is rejected.
   */
  function ValidateData(o: Output): (r: Option<Payload>)
    ensures r.Some? <==> !o.OtherOutput?
    ensures r.Some? ==> KindOf(r.value) == ResponseTypeOf(o)
  {
    match o
    case FlightOutput(f) => Some(FlightData(f))
    case HotelOutput(h) => Some(HotelData(h))
    case PlanOutput(p) => Some(PlanData(p))
    case OtherOutput(_, _) => None
  }

  /** Builds the envelope for a final output (the body of the `try`). */
  function BuildResponse(o: Output): Reply {
    var t := ResponseTypeOf(o);
    if t == "general" then
      match o
      case OtherOutput(_, text) => Ok(TravelResponse(true, "general", Text(text), Some(GeneralMessage)))
      case _ => assert false; HttpError(500, ErrorPrefix)
    else
      match ValidateData(o)
      case None => HttpError(500, ErrorPrefix + InvalidDataError)
      case Some(data) =>
        var message := if t == "flight" then FlightMessage else if t == "hotel" then HotelMessage else PlanMessage;
        Ok(TravelResponse(true, t, data, Some(message)))
  }

  /**
   * process_travel_query after Runner.run. A failed run, or an envelope that
   * cannot be built, is an HTTP 500 whose detail carries the error; every
   * envelope it returns satisfies WellFormed and has the kind the chain
   * chose.
   */
  function ProcessTravelQuery(run: RunOutcome): (r: Reply)
    ensures run.Raised? ==> r == HttpError(500, ErrorPrefix + run.error)
    ensures r.HttpError? ==> r.statusCode == 500
    ensures r.Ok? ==> run.Completed? && WellFormed(r.response)
    ensures r.Ok? ==> r.response.responseType == ResponseTypeOf(run.finalOutput)
    ensures run.Completed? && !run.finalOutput.OtherOutput? ==> r.Ok?
    ensures run.Completed? && run.finalOutput.OtherOutput? ==>
      (r.Ok? <==> ResponseTypeOf(run.finalOutput) == "general")
  {
    match run
    case Raised(e) => HttpError(500, ErrorPrefix + e)
    case Completed(o) => BuildResponse(o)
  }

  /** A schema output comes back unchanged as the payload of its own kind. */
  lemma SchemaOutputsSucceed(f: FlightRecommendation, h: HotelRecommendation, p: TravelPlan)
    ensures ProcessTravelQuery(Completed(FlightOutput(f)))
         == Ok(TravelResponse(true, "flight", FlightData(f), Some(FlightMessage)))
    ensures ProcessTravelQuery(Completed(HotelOutput(h)))
         == Ok(TravelResponse(true, "hotel", HotelData(h), Some(HotelMessage)))
    ensures ProcessTravelQuery(Completed(PlanOutput(p)))
         == Ok(TravelResponse(true, "travel_plan", PlanData(p), Some(PlanMessage)))
  {
  }

  /**
   * Any other object is answered as "general" with its string form, unless
   * one of the probed attributes sends it down a schema branch, where the
   * envelope rejects it.
   */
  lemma OtherOutputs(attributes: set<string>, text: string)
    ensures var r := ProcessTravelQuery(Completed(OtherOutput(attributes, text)));
      if "airline" in attributes || ("name" in attributes && "amenities" in attributes) || "destination" in attributes
      then r == HttpError(500, ErrorPrefix + InvalidDataError)
      else r == Ok(TravelResponse(true, "general", Text(text), Some(GeneralMessage)))
  {
  }
}
