/**
 * The response schemas of the travel-agent API (the pydantic models of
 * fastapi_travel_agent.py). Monetary amounts are integer cents; the source's
 * floats are only ever compared, so nothing is lost for prices and ceilings in
 * whole cents.
 */
module Schemas {

  datatype Option<+T> = None | Some(value: T)

  /** Structured output of the flight specialist. */
  datatype FlightRecommendation = FlightRecommendation(
    airline: string,
    departureTime: string,
    arrivalTime: string,
    price: int,
    directFlight: bool,
    recommendationReason: string)

  /** Structured output of the hotel specialist. */
  datatype HotelRecommendation = HotelRecommendation(
    name: string,
    location: string,
    pricePerNight: int,
    amenities: seq<string>,
    recommendationReason: string)

  /** Structured output of the travel planner. */
  datatype TravelPlan = TravelPlan(
    destination: string,
    durationDays: int,
    budget: int,
    activities: seq<string>,
    notes: string)

  /** The `data` field of a response: one of the three schemas or a string. */
  datatype Payload =
    | FlightData(flight: FlightRecommendation)
    | HotelData(hotel: HotelRecommendation)
    | PlanData(plan: TravelPlan)
    | Text(text: string)

  /** The envelope returned by the query endpoint. */
  datatype TravelResponse = TravelResponse(
    success: bool,
    responseType: string,
    data: Payload,
    message: Option<string>)

  /** The `response_type` string that names each payload variant. */
  function KindOf(p: Payload): string {
    match p
    case FlightData(_) => "flight"
    case HotelData(_) => "hotel"
    case PlanData(_) => "travel_plan"
    case Text(_) => "general"
  }

  const FlightMessage := "Flight recommendation generated successfully"
  const HotelMessage := "Hotel recommendation generated successfully"
  const PlanMessage := "Travel plan generated successfully"
  const GeneralMessage := "Response generated successfully"

  /**
   * The envelope invariant: the call succeeded, `responseType` names the
   * concrete kind of `data`, and the message is the one fixed for that kind.
   */
  predicate WellFormed(r: TravelResponse) {
    r.success &&
    match r.data
    case FlightData(_) => r.responseType == "flight" && r.message == Some(FlightMessage)
    case HotelData(_) => r.responseType == "hotel" && r.message == Some(HotelMessage)
    case PlanData(_) => r.responseType == "travel_plan" && r.message == Some(PlanMessage)
    case Text(_) => r.responseType == "general" && r.message == Some(GeneralMessage)
  }
}
