/**
 * `QueryResolver`: answering a point query from a data cube. The resolver projects the query's
 * location and dates and asks the cube for the query's one variable.
 */
module QueryResolution {
  import opened Wrappers
  import opened Enums
  import opened Queries
  import opened ZarrayDataCubes

  /**
   * `_resolve_point_daterange_query`: the cube's answer for the query's location, dates and the
   * single-variable list `[query.variable]`. On success the table has exactly one column, named
   * by the variable's value; a cube whose rename map lacks the variable fails with that variable.
   */
  function ResolvePointDateRange(query: PointDateRangeQuery, data: ZarrayDataCube): (r: Result<Table, CubeError>)
    ensures r == GetData(data, query.location.latitude, query.location.longitude, query.startDate, query.endDate, [query.variable])
    ensures r.Ok? ==> r.value.columns.Keys == {query.variable.Value()}
    ensures data.variableRenameMap.Some? && query.variable !in data.variableRenameMap.value ==>
      r == Err(UnmappedVariable(query.variable))
  {
    var r := GetData(data, query.location.latitude, query.location.longitude, query.startDate, query.endDate, [query.variable]);
    assert (set v | v in [query.variable] :: v.Value()) == {query.variable.Value()};
    r
  }

  /**
   * `resolve`: there is no dispatch on the query type, every query takes the point/date-range
   * path, so its answer has the same single column.
   */
  function Resolve(query: PointDateRangeQuery, data: ZarrayDataCube): (r: Result<Table, CubeError>)
    ensures r == GetData(data, query.location.latitude, query.location.longitude, query.startDate, query.endDate, [query.variable])
    ensures r.Ok? ==> r.value.columns.Keys == {query.variable.Value()}
    ensures data.variableRenameMap.Some? && query.variable !in data.variableRenameMap.value ==>
      r == Err(UnmappedVariable(query.variable))
  {
    ResolvePointDateRange(query, data)
  }

  /**
   * The one column is the series the variable's storage array holds at the grid point closest
   * to the query's location.
   */
  lemma ResolveColumn(query: PointDateRangeQuery, data: ZarrayDataCube)
    requires Resolve(query, data).Ok?
    ensures "latitude" in data.dataset.axes && |data.dataset.axes["latitude"]| > 0
    ensures "longitude" in data.dataset.axes && |data.dataset.axes["longitude"]| > 0
    ensures var t := Resolve(query, data).value;
      query.variable.Value() in t.columns &&
      ColumnFor(data, query.variable, ArgMin(data.dataset.axes["latitude"], query.location.latitude),
                ArgMin(data.dataset.axes["longitude"], query.location.longitude), t.columns[query.variable.Value()])
  {
    GetDataColumns(data, query.location.latitude, query.location.longitude, query.startDate, query.endDate, [query.variable]);
  }

  /** The query is answered exactly when the cube can serve its one variable at its location. */
  lemma ResolveOk(query: PointDateRangeQuery, data: ZarrayDataCube)
    ensures Resolve(query, data).Ok? <==>
            GetDataSucceeds(data, query.location.latitude, query.location.longitude, [query.variable])
  {
    GetDataOk(data, query.location.latitude, query.location.longitude, query.startDate, query.endDate, [query.variable]);
  }

  /**
   * Only the location and the variable matter: two queries that agree on them get the same
   * answer, whatever their dates, frequency, resolution or model.
   */
  lemma ResolveDependsOnLocationAndVariable(q1: PointDateRangeQuery, q2: PointDateRangeQuery, data: ZarrayDataCube)
    requires q1.location == q2.location && q1.variable == q2.variable
    ensures Resolve(q1, data) == Resolve(q2, data)
  {
    GetDataIgnoresDates(data, q1.location.latitude, q1.location.longitude, q1.startDate, q1.endDate,
                        q2.startDate, q2.endDate, [q1.variable]);
  }
}
