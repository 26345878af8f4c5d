/** The query records: what a user asks the catalog for. */
module Queries {
  import opened Enums

  /** A date-time, carried as an opaque value: no operation here looks inside it. */
  datatype Timestamp = Timestamp(isoFormat: string)

  /** A point on the globe, in degrees. */
  datatype PointLocation = PointLocation(latitude: real, longitude: real)

  /** `Query` narrowed to `PointDateRangeQuery`: a point location and a date range for one variable. */
  datatype PointDateRangeQuery = PointDateRangeQuery(
    startDate: Timestamp,
    endDate: Timestamp,
    frequency: Frequency,
    location: PointLocation,
    weatherModelGroup: string,
    weatherModelId: string,
    resolution: Resolution,
    variable: WeatherVariable)
}
