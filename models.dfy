/** Record shapes of the dashboard's data layer (src/app/core/models). */
module Models {

  datatype Option<+T> = None | Some(value: T)

  /**
   * One appearance of a country at one edition of the games. Only the medal
   * count is read by the modelled code; an absent count is `None`.
   */
  datatype Participation = Participation(medalsCount: Option<int>)

  /** A country and all its participations, in the order the dataset lists them. */
  datatype OlympicCountry = OlympicCountry(id: int, country: string, participations: seq<Participation>)

  /** A `{ name, value }` pair in the shape the charting library consumes. */
  datatype ChartPoint = ChartPoint(name: string, value: int)

  /** Everything the detail page shows about one country. */
  datatype CountryDetails = CountryDetails(
    name: string,
    participationCount: int,
    totalMedals: int,
    totalAthletes: int,
    medalHistory: seq<ChartPoint>)
}
