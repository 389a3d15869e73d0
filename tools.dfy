/**
 * The three mock lookup tools of fastapi_travel_agent.py: hotel search with an
 * optional price ceiling, flight search, and the weather forecast. Each tool
 * is a pure function of a constant table; the JSON or sentence the source
 * renders from the selected records is not modelled, the records are.
 */
module Tools {
  import opened Schemas

  // ---------------------------------------------------------------------------
  // Sequences
  // ---------------------------------------------------------------------------

  /** `a` can be obtained from `b` by deleting elements (order is kept). */
  predicate IsSubsequence<T(==)>(a: seq<T>, b: seq<T>)
    decreases |b|
  {
    if a == [] then true
    else if b == [] then false
    else if a[0] == b[0] then IsSubsequence(a[1..], b[1..])
    else IsSubsequence(a, b[1..])
  }

  // ---------------------------------------------------------------------------
  // Hotels
  // ---------------------------------------------------------------------------

  /** One record of the hotel table (price in cents). */
  datatype HotelOption = HotelOption(
    name: string,
    location: string,
    pricePerNight: nat,
    amenities: seq<string>)

  const CityCenterHotel := HotelOption("City Center Hotel", "Downtown", 19999,
                                       ["WiFi", "Pool", "Gym", "Restaurant"])
  const RiversideInn := HotelOption("Riverside Inn", "Riverside District", 14950,
                                    ["WiFi", "Free Breakfast", "Parking"])
  const LuxuryPalace := HotelOption("Luxury Palace", "Historic District", 34999,
                                    ["WiFi", "Pool", "Spa", "Fine Dining", "Concierge"])

  /** The fixed hotel table, in the source's order. */
  const HotelTable: seq<HotelOption> := [CityCenterHotel, RiversideInn, LuxuryPalace]

  predicate Affordable(h: HotelOption, ceiling: int) {
    h.pricePerNight <= ceiling
  }

  /** Number of records of `hotels` whose price is within `ceiling`. */
  function CountAffordable(hotels: seq<HotelOption>, ceiling: int): nat {
    if hotels == [] then 0
    else (if Affordable(hotels[0], ceiling) then 1 else 0) + CountAffordable(hotels[1..], ceiling)
  }

  /**
   * The list comprehension of search_hotels: the records whose price is at
   * most `ceiling`, in their original order.
   */
  function FilterAffordable(hotels: seq<HotelOption>, ceiling: int): (r: seq<HotelOption>)
    ensures forall i :: 0 <= i < |r| ==> Affordable(r[i], ceiling)
    ensures forall h :: h in r <==> h in hotels && Affordable(h, ceiling)
    ensures |r| == CountAffordable(hotels, ceiling)
    ensures IsSubsequence(r, hotels)
  {
    if hotels == [] then []
    else if Affordable(hotels[0], ceiling) then [hotels[0]] + FilterAffordable(hotels[1..], ceiling)
    else FilterAffordable(hotels[1..], ceiling)
  }

  /** A subsequence made of affordable records has at most as many as the count. */
  lemma {:induction false} AffordableSubsequenceBound(r: seq<HotelOption>, s: seq<HotelOption>, ceiling: int)
    requires IsSubsequence(r, s)
    requires forall i :: 0 <= i < |r| ==> Affordable(r[i], ceiling)
    ensures |r| <= CountAffordable(s, ceiling)
    decreases |s|
  {
    if r != [] {
      if r[0] == s[0] {
        AffordableSubsequenceBound(r[1..], s[1..], ceiling);
      } else {
        AffordableSubsequenceBound(r, s[1..], ceiling);
      }
    }
  }

  /**
   * The contract of FilterAffordable determines its result: any subsequence
   * of `s` that holds only affordable records and as many as there are is
   * exactly the filtered sequence. Nothing is added, dropped or reordered.
   */
  lemma {:induction false} FilterAffordableUnique(r: seq<HotelOption>, s: seq<HotelOption>, ceiling: int)
    requires IsSubsequence(r, s)
    requires forall i :: 0 <= i < |r| ==> Affordable(r[i], ceiling)
    requires |r| == CountAffordable(s, ceiling)
    ensures r == FilterAffordable(s, ceiling)
    decreases |s|
  {
    if s == [] {
    } else if r == [] {
      assert CountAffordable(s, ceiling) == 0;
      assert |FilterAffordable(s, ceiling)| == 0;
    } else if r[0] == s[0] {
      FilterAffordableUnique(r[1..], s[1..], ceiling);
      assert r == [r[0]] + r[1..];
    } else {
      AffordableSubsequenceBound(r, s[1..], ceiling);
      assert !Affordable(s[0], ceiling);
      FilterAffordableUnique(r, s[1..], ceiling);
    }
  }

  /** A ceiling that every record meets keeps the sequence unchanged. */
  lemma {:induction false} FilterAffordableAll(s: seq<HotelOption>, ceiling: int)
    requires forall i :: 0 <= i < |s| ==> Affordable(s[i], ceiling)
    ensures FilterAffordable(s, ceiling) == s
  {
    if s != [] {
      FilterAffordableAll(s[1..], ceiling);
      assert s == [s[0]] + s[1..];
    }
  }

  /** Filtering twice with the same ceiling is filtering once. */
  lemma FilterAffordableIdempotent(s: seq<HotelOption>, ceiling: int)
    ensures FilterAffordable(FilterAffordable(s, ceiling), ceiling) == FilterAffordable(s, ceiling)
  {
    FilterAffordableAll(FilterAffordable(s, ceiling), ceiling);
  }

  /**
   * search_hotels. The city and dates are accepted and ignored; with a
   * ceiling the table is filtered by price, without one it is returned whole.
   */
  function SearchHotels(city: string, checkIn: string, checkOut: string, maxPrice: Option<int>)
    : (r: seq<HotelOption>)
    ensures maxPrice.None? ==> r == HotelTable
    ensures maxPrice.Some? ==> forall i :: 0 <= i < |r| ==> r[i].pricePerNight <= maxPrice.value
    ensures maxPrice.Some? ==> forall h :: h in r <==> h in HotelTable && h.pricePerNight <= maxPrice.value
    ensures maxPrice.Some? ==> IsSubsequence(r, HotelTable) && |r| == CountAffordable(HotelTable, maxPrice.value)
  {
    if maxPrice.Some? then FilterAffordable(HotelTable, maxPrice.value) else HotelTable
  }

  /** The result depends on the ceiling only. */
  lemma SearchHotelsIgnoresCityAndDates(c1: string, in1: string, out1: string,
                                        c2: string, in2: string, out2: string, maxPrice: Option<int>)
    ensures SearchHotels(c1, in1, out1, maxPrice) == SearchHotels(c2, in2, out2, maxPrice)
  {
  }

  /** A ceiling at or above the dearest room returns the whole table. */
  lemma SearchHotelsGenerousCeiling(city: string, checkIn: string, checkOut: string, ceiling: int)
    requires ceiling >= 34999
    ensures SearchHotels(city, checkIn, checkOut, Some(ceiling)) == HotelTable
  {
    FilterAffordableAll(HotelTable, ceiling);
  }

  /** "A hotel for under $300 per night" keeps the first two hotels, in table order. */
  lemma SearchHotelsUnder300(city: string, checkIn: string, checkOut: string)
    ensures SearchHotels(city, checkIn, checkOut, Some(30000)) == [CityCenterHotel, RiversideInn]
  {
    assert HotelTable[1..] == [RiversideInn, LuxuryPalace];
    assert HotelTable[1..][1..] == [LuxuryPalace];
    assert FilterAffordable([LuxuryPalace], 30000) == [];
  }

  // ---------------------------------------------------------------------------
  // Flights
  // ---------------------------------------------------------------------------

  /** One record of the flight table (price in cents). */
  datatype FlightOption = FlightOption(
    airline: string,
    departureTime: string,
    arrivalTime: string,
    price: nat,
    direct: bool)

  const FlightTable: seq<FlightOption> := [
    FlightOption("SkyWays", "08:00", "10:30", 35000, true),
    FlightOption("OceanAir", "12:45", "15:15", 27550, true),
    FlightOption("MountainJet", "16:30", "21:45", 22575, false)
  ]

  /** search_flights: the same three options whatever is asked. */
  function SearchFlights(origin: string, destination: string, date: string): (r: seq<FlightOption>)
    ensures |r| == 3
    ensures r[0].airline == "SkyWays" && r[1].airline == "OceanAir" && r[2].airline == "MountainJet"
    ensures r[0].direct && r[1].direct && !r[2].direct
    ensures r == FlightTable
  {
    FlightTable
  }

  /** The flight result does not depend on any argument. */
  lemma SearchFlightsIgnoresArguments(o1: string, d1: string, t1: string,
                                      o2: string, d2: string, t2: string)
    ensures SearchFlights(o1, d1, t1) == SearchFlights(o2, d2, t2)
  {
  }

  // ---------------------------------------------------------------------------
  // Weather
  // ---------------------------------------------------------------------------

  /** A weather condition with its probability in percent. */
  datatype Condition = Condition(name: string, chance: nat)

  /** Conditions per city, each list in the source's dictionary order. */
  const WeatherData: map<string, seq<Condition>> := map[
    "New York" := [Condition("sunny", 30), Condition("rainy", 40), Condition("cloudy", 30)],
    "Los Angeles" := [Condition("sunny", 80), Condition("rainy", 10), Condition("cloudy", 10)],
    "Chicago" := [Condition("sunny", 40), Condition("rainy", 30), Condition("cloudy", 30)],
    "Miami" := [Condition("sunny", 70), Condition("rainy", 20), Condition("cloudy", 10)],
    "London" := [Condition("sunny", 20), Condition("rainy", 50), Condition("cloudy", 30)],
    "Paris" := [Condition("sunny", 40), Condition("rainy", 30), Condition("cloudy", 30)],
    "Tokyo" := [Condition("sunny", 50), Condition("rainy", 30), Condition("cloudy", 20)]
  ]

  const TemperatureRanges: map<string, string> := map[
    "New York" := "15-25°C",
    "Los Angeles" := "20-30°C",
    "Chicago" := "10-20°C",
    "Miami" := "25-35°C",
    "London" := "10-18°C",
    "Paris" := "12-22°C",
    "Tokyo" := "15-25°C"
  ]

  /** The fallback of `temp_range.get(city, ...)`. */
  const DefaultTemperatureRange := "15-25°C"

  /**
   * `max(conditions, key=conditions.get)`: the index of the condition with
   * the highest probability; on a tie, the first one, as Python's max keeps
   * the first maximal element it meets.
   */
  function MostLikely(conditions: seq<Condition>): (k: nat)
    requires |conditions| > 0
    ensures k < |conditions|
    ensures forall j :: 0 <= j < |conditions| ==> conditions[j].chance <= conditions[k].chance
    ensures forall j :: 0 <= j < k ==> conditions[j].chance < conditions[k].chance
  {
    if |conditions| == 1 then 0
    else
      var best := MostLikely(conditions[..|conditions| - 1]);
      if conditions[|conditions| - 1].chance > conditions[best].chance then |conditions| - 1 else best
  }

  /** What the forecast tool reports. */
  datatype Forecast =
    | Forecast(city: string, date: string, condition: string, temperatureRange: string)
    | NotAvailable(city: string)

  /** Every city with weather data has a temperature range and some conditions. */
  lemma WeatherTablesAgree()
    ensures WeatherData.Keys == TemperatureRanges.Keys
    ensures forall city :: city in WeatherData ==> |WeatherData[city]| == 3
  {
  }

  /**
   * get_weather_forecast. A known city gets its most likely condition and its
   * own temperature range (the default is never reached); any other city gets
   * the not-available answer.
   */
  function GetWeatherForecast(city: string, date: string): (r: Forecast)
    ensures r.city == city
    ensures r.Forecast? <==> city in WeatherData
    ensures r.Forecast? ==> r.date == date
    ensures r.Forecast? ==> city in TemperatureRanges && r.temperatureRange == TemperatureRanges[city]
    ensures r.Forecast? ==>
      exists k :: 0 <= k < |WeatherData[city]| && WeatherData[city][k].name == r.condition &&
        forall j :: 0 <= j < |WeatherData[city]| ==> WeatherData[city][j].chance <= WeatherData[city][k].chance
  {
    if city in WeatherData then
      WeatherTablesAgree();
      var conditions := WeatherData[city];
      var k := MostLikely(conditions);
      var range := if city in TemperatureRanges then TemperatureRanges[city] else DefaultTemperatureRange;
      Forecast(city, date, conditions[k].name, range)
    else
      NotAvailable(city)
  }

  /** The tool's answers for two cities of the table and one outside it. */
  lemma ForecastExamples(date: string)
    ensures GetWeatherForecast("New York", date) == Forecast("New York", date, "rainy", "15-25°C")
    ensures GetWeatherForecast("Paris", date) == Forecast("Paris", date, "sunny", "12-22°C")
    ensures GetWeatherForecast("Berlin", date) == NotAvailable("Berlin")
  {
  }
}
