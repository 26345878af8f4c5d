/**
 * Point extraction from a zarr-backed data cube (`ZarrayDataCube`).
 *
 * The dataset is a group of named arrays: one-dimensional coordinate axes ("latitude",
 * "longitude", "time") and three-dimensional variable arrays indexed time x latitude x
 * longitude. `GetData` picks the grid point closest to the requested location and returns, for
 * each requested variable, the full time series stored at that point.
 */
module ZarrayDataCubes {
  import opened Wrappers
  import opened Enums
  import opened Queries

  /** The coordinates of a cube. */
  datatype Coordinate = Latitude | Longitude | Time

  /** `_coordinate_rename_map`: the name under which a coordinate axis is stored. */
  function CoordinateName(c: Coordinate): string
  {
    match c
    case Latitude => "latitude"
    case Longitude => "longitude"
    case Time => "time"
  }

  /** The three axes are stored under the names "latitude", "longitude" and "time", one name each. */
  lemma CoordinateNamesDistinct(c: Coordinate, d: Coordinate)
    ensures CoordinateName(c) in {"latitude", "longitude", "time"}
    ensures CoordinateName(c) == CoordinateName(d) <==> c == d
  {
  }

  /** A three-dimensional array as stored: its latitude and longitude extents and its cells, time first. */
  datatype Array3 = Array3(lats: nat, lons: nat, cells: seq<seq<seq<real>>>)

  /** A rectangular three-dimensional array: every time step is a `lats` x `lons` grid. */
  type Grid = a: Array3 | forall t :: 0 <= t < |a.cells| ==>
    |a.cells[t]| == a.lats && forall i :: 0 <= i < a.lats ==> |a.cells[t][i]| == a.lons
    witness Array3(0, 0, [])

  /** A zarr group: coordinate axes and variable arrays, each by name. */
  datatype Dataset = Dataset(axes: map<string, seq<real>>, arrays: map<string, Grid>)

  /**
   * `ZarrayDataCube`: a dataset and an optional map from weather variables to the names under
   * which this dataset stores them.
   */
  datatype ZarrayDataCube = ZarrayDataCube(dataset: Dataset, variableRenameMap: Option<map<WeatherVariable, string>>)

  /** The output table: one time series per column name. */
  datatype Table = Table(columns: map<string, seq<real>>)

  datatype CubeError =
    | UnmappedVariable(variable: WeatherVariable)  // `KeyError` from the rename map
    | MissingArray(name: string)                   // `KeyError` from the dataset
    | EmptyAxis(name: string)                      // `ValueError` from `argmin` of an empty array
    | IndexOutOfBounds(name: string)               // `IndexError` from slicing a variable array
    | RaggedColumns                                // `ValueError`: columns of different lengths

  // ------------------------------------------------------------ closest index

  /** `abs(x - v)`. */
  function Distance(x: real, v: real): real
  {
    if x >= v then x - v else v - x
  }

  /**
   * `argmin(abs(values - v))`: an index of a value closest to `v`, the first one on ties.
   */
  function ArgMin(values: seq<real>, v: real): (i: nat)
    requires |values| > 0
    ensures i < |values|
    ensures forall j :: 0 <= j < |values| ==> Distance(values[i], v) <= Distance(values[j], v)
    ensures forall j :: 0 <= j < i ==> Distance(values[j], v) > Distance(values[i], v)
  {
    if |values| == 1 then 0
    else
      var k := ArgMin(values[..|values| - 1], v);
      if Distance(values[|values| - 1], v) < Distance(values[k], v) then |values| - 1 else k
  }

  /** `_closest_coodinate_index`: the argmin over the named axis; a missing axis or an empty one is an error. */
  function ClosestCoordinateIndex(ds: Dataset, c: Coordinate, value: real): (r: Result<nat, CubeError>)
    ensures CoordinateName(c) !in ds.axes ==> r == Err(MissingArray(CoordinateName(c)))
    ensures CoordinateName(c) in ds.axes && ds.axes[CoordinateName(c)] == [] ==> r == Err(EmptyAxis(CoordinateName(c)))
    ensures CoordinateName(c) in ds.axes && ds.axes[CoordinateName(c)] != [] ==>
      r == Ok(ArgMin(ds.axes[CoordinateName(c)], value))
    ensures r.Ok? ==> CoordinateName(c) in ds.axes && r.value == ArgMin(ds.axes[CoordinateName(c)], value)
  {
    var name := CoordinateName(c);
    if name !in ds.axes then Err(MissingArray(name))
    else if |ds.axes[name]| == 0 then Err(EmptyAxis(name))
    else Ok(ArgMin(ds.axes[name], value))
  }

  // ------------------------------------------------------------ get_data

  /** The name a variable is stored under: from the rename map when there is one, else its own value. */
  predicate Renames(renameMap: Option<map<WeatherVariable, string>>, v: WeatherVariable, name: string)
  {
    if renameMap.Some? then v in renameMap.value && renameMap.value[v] == name else name == v.Value()
  }

  /**
   * `variable_strings`: the storage name of each requested variable, in order. With a rename
   * map, a variable the map does not hold is an error (the first such one is reported).
   */
  function StorageNames(renameMap: Option<map<WeatherVariable, string>>, variables: seq<WeatherVariable>): (r: Result<seq<string>, CubeError>)
    ensures r.Ok? <==> renameMap.None? || forall v :: v in variables ==> v in renameMap.value
    ensures r.Ok? ==> |r.value| == |variables| && forall i :: 0 <= i < |variables| ==> Renames(renameMap, variables[i], r.value[i])
    ensures r.Err? ==> exists i :: 0 <= i < |variables| && r.error == UnmappedVariable(variables[i]) &&
                         renameMap.Some? && variables[i] !in renameMap.value &&
                         forall j :: 0 <= j < i ==> variables[j] in renameMap.value
  {
    if variables == [] then Ok([])
    else
      var v := variables[0];
      if renameMap.Some? && v !in renameMap.value then Err(UnmappedVariable(v))
      else
        var name := if renameMap.Some? then renameMap.value[v] else v.Value();
        var rest :- StorageNames(renameMap, variables[1..]);
        Ok([name] + rest)
  }

  /** `dataset[name][:, lat, lon]`: the time series stored at one grid point of a variable array. */
  function Slice(ds: Dataset, name: string, lat: nat, lon: nat): (r: Result<seq<real>, CubeError>)
    ensures name !in ds.arrays ==> r == Err(MissingArray(name))
    ensures name in ds.arrays && (lat >= ds.arrays[name].lats || lon >= ds.arrays[name].lons) ==> r == Err(IndexOutOfBounds(name))
    ensures r.Ok? <==> name in ds.arrays && lat < ds.arrays[name].lats && lon < ds.arrays[name].lons
    ensures r.Ok? ==> |r.value| == |ds.arrays[name].cells|
    ensures r.Ok? ==> forall t :: 0 <= t < |r.value| ==> r.value[t] == ds.arrays[name].cells[t][lat][lon]
  {
    if name !in ds.arrays then Err(MissingArray(name))
    else
      var g := ds.arrays[name];
      if lat >= g.lats || lon >= g.lons then Err(IndexOutOfBounds(name))
      else Ok(seq(|g.cells|, t requires 0 <= t < |g.cells| => g.cells[t][lat][lon]))
  }

  /**
   * `var_output_dict`: for each requested variable, in order, the column named by the
   * variable's value holds the slice of the array stored under its storage name; the first
   * slice that fails makes the whole comprehension fail.
   */
  function Columns(ds: Dataset, variables: seq<WeatherVariable>, names: seq<string>, lat: nat, lon: nat): (r: Result<map<string, seq<real>>, CubeError>)
    requires |names| == |variables|
    ensures r.Ok? ==> r.value.Keys == set v | v in variables :: v.Value()
  {
    if variables == [] then Ok(map[])
    else
      var column :- Slice(ds, names[0], lat, lon);
      var rest :- Columns(ds, variables[1..], names[1..], lat, lon);
      Ok(map[variables[0].Value() := column] + rest)
  }

  /** The columns are built exactly when every slice succeeds; otherwise the error is a slice's. */
  lemma {:induction false} ColumnsOk(ds: Dataset, variables: seq<WeatherVariable>, names: seq<string>, lat: nat, lon: nat)
    requires |names| == |variables|
    ensures Columns(ds, variables, names, lat, lon).Ok? <==> forall i :: 0 <= i < |names| ==> Slice(ds, names[i], lat, lon).Ok?
    ensures Columns(ds, variables, names, lat, lon).Err? ==>
      exists i :: 0 <= i < |names| && Slice(ds, names[i], lat, lon) == Err(Columns(ds, variables, names, lat, lon).error)
  {
    if variables != [] && Slice(ds, names[0], lat, lon).Ok? {
      ColumnsOk(ds, variables[1..], names[1..], lat, lon);
      if Columns(ds, variables[1..], names[1..], lat, lon).Err? {
        var i :| 0 <= i < |names[1..]| && Slice(ds, names[1..][i], lat, lon) == Err(Columns(ds, variables[1..], names[1..], lat, lon).error);
        assert Slice(ds, names[i + 1], lat, lon).Err?;
      } else {
        forall i | 0 <= i < |names| ensures Slice(ds, names[i], lat, lon).Ok? {
          if i > 0 { assert names[i] == names[1..][i - 1]; }
        }
      }
    }
  }

  /** Each column is the slice under the storage name of a variable whose value names the column. */
  lemma {:induction false} ColumnsContent(ds: Dataset, variables: seq<WeatherVariable>, names: seq<string>, lat: nat, lon: nat)
    requires |names| == |variables|
    requires Columns(ds, variables, names, lat, lon).Ok?
    ensures var cs := Columns(ds, variables, names, lat, lon).value;
      forall k :: k in cs ==> exists i :: 0 <= i < |names| && variables[i].Value() == k && Slice(ds, names[i], lat, lon) == Ok(cs[k])
  {
    if variables != [] {
      var cs := Columns(ds, variables, names, lat, lon).value;
      var rest := Columns(ds, variables[1..], names[1..], lat, lon).value;
      ColumnsContent(ds, variables[1..], names[1..], lat, lon);
      forall k | k in cs
        ensures exists i :: 0 <= i < |names| && variables[i].Value() == k && Slice(ds, names[i], lat, lon) == Ok(cs[k])
      {
        if k in rest {
          var i :| 0 <= i < |names[1..]| && variables[1..][i].Value() == k && Slice(ds, names[1..][i], lat, lon) == Ok(rest[k]);
          assert variables[i + 1].Value() == k && Slice(ds, names[i + 1], lat, lon) == Ok(cs[k]);
        } else {
          assert variables[0].Value() == k && Slice(ds, names[0], lat, lon) == Ok(cs[k]);
        }
      }
    }
  }

  /** All columns of a table have the same length. */
  predicate SameLength(columns: map<string, seq<real>>)
  {
    forall a, b :: a in columns && b in columns ==> |columns[a]| == |columns[b]|
  }

  /** `pd.DataFrame(columns)`: a table, unless the columns have different lengths. */
  function MakeTable(columns: map<string, seq<real>>): (r: Result<Table, CubeError>)
    ensures r.Ok? <==> SameLength(columns)
    ensures r.Ok? ==> r.value.columns == columns
  {
    if SameLength(columns) then Ok(Table(columns)) else Err(RaggedColumns)
  }

  /** The column `col` is the full time series of the array `name` at grid point (`lat`, `lon`). */
  ghost predicate ColumnAt(ds: Dataset, name: string, lat: nat, lon: nat, col: seq<real>)
  {
    name in ds.arrays && lat < ds.arrays[name].lats && lon < ds.arrays[name].lons &&
    |col| == |ds.arrays[name].cells| &&
    forall t :: 0 <= t < |col| ==> col[t] == ds.arrays[name].cells[t][lat][lon]
  }

  /**
   * `get_data`: resolve storage names, find the closest latitude and longitude indices, slice
   * each variable's array there, and assemble the table. On success there is one column per
   * requested variable, named by the variable's value, holding the series its storage array
   * has at the grid point closest to the location.
   */
  function GetData(cube: ZarrayDataCube, latitude: real, longitude: real, startDate: Timestamp,
                   endDate: Timestamp, variables: seq<WeatherVariable>): (r: Result<Table, CubeError>)
    ensures r.Ok? ==> r.value.columns.Keys == set v | v in variables :: v.Value()
    ensures r.Ok? ==> SameLength(r.value.columns)
    ensures cube.variableRenameMap.Some? && (exists v :: v in variables && v !in cube.variableRenameMap.value) ==>
      r.Err? && r.error.UnmappedVariable? && r.error.variable in variables
    ensures StorageNames(cube.variableRenameMap, variables).Ok? && "latitude" !in cube.dataset.axes ==>
      r == Err(MissingArray("latitude"))
    ensures (StorageNames(cube.variableRenameMap, variables).Ok? && "latitude" in cube.dataset.axes &&
             cube.dataset.axes["latitude"] != [] && "longitude" !in cube.dataset.axes) ==>
      r == Err(MissingArray("longitude"))
  {
    var names :- StorageNames(cube.variableRenameMap, variables);
    var lat :- ClosestCoordinateIndex(cube.dataset, Latitude, latitude);
    var lon :- ClosestCoordinateIndex(cube.dataset, Longitude, longitude);
    var columns :- Columns(cube.dataset, variables, names, lat, lon);
    MakeTable(columns)
  }

  /**
   * On success, the column of each requested variable is the series its storage array holds at
   * the grid point whose latitude and longitude are closest to the requested ones.
   */
  lemma GetDataColumns(cube: ZarrayDataCube, latitude: real, longitude: real, startDate: Timestamp,
                       endDate: Timestamp, variables: seq<WeatherVariable>)
    requires GetData(cube, latitude, longitude, startDate, endDate, variables).Ok?
    ensures "latitude" in cube.dataset.axes && |cube.dataset.axes["latitude"]| > 0
    ensures "longitude" in cube.dataset.axes && |cube.dataset.axes["longitude"]| > 0
    ensures var t := GetData(cube, latitude, longitude, startDate, endDate, variables).value;
      forall i :: 0 <= i < |variables| ==>
        (variables[i].Value() in t.columns &&
         ColumnFor(cube, variables[i], ArgMin(cube.dataset.axes["latitude"], latitude),
                   ArgMin(cube.dataset.axes["longitude"], longitude), t.columns[variables[i].Value()]))
  {
    var names := StorageNames(cube.variableRenameMap, variables).value;
    var lat := ClosestCoordinateIndex(cube.dataset, Latitude, latitude).value;
    var lon := ClosestCoordinateIndex(cube.dataset, Longitude, longitude).value;
    var columns := Columns(cube.dataset, variables, names, lat, lon).value;
    ColumnsOfVariables(cube, variables, names, lat, lon, columns);
  }

  /** `col` is the series stored at (`lat`, `lon`) under the storage name of `v`. */
  ghost predicate ColumnFor(cube: ZarrayDataCube, v: WeatherVariable, lat: nat, lon: nat, col: seq<real>)
  {
    exists name :: Renames(cube.variableRenameMap, v, name) && ColumnAt(cube.dataset, name, lat, lon, col)
  }

  /** Each column holds the slice of the one storage name its variable has. */
  lemma ColumnsOfVariables(cube: ZarrayDataCube, variables: seq<WeatherVariable>, names: seq<string>, lat: nat, lon: nat,
                           columns: map<string, seq<real>>)
    requires StorageNames(cube.variableRenameMap, variables) == Ok(names)
    requires Columns(cube.dataset, variables, names, lat, lon) == Ok(columns)
    ensures forall i :: 0 <= i < |variables| ==>
      variables[i].Value() in columns && ColumnFor(cube, variables[i], lat, lon, columns[variables[i].Value()])
  {
    ColumnsContent(cube.dataset, variables, names, lat, lon);
    forall i | 0 <= i < |variables|
      ensures variables[i].Value() in columns && ColumnFor(cube, variables[i], lat, lon, columns[variables[i].Value()])
    {
      var k := variables[i].Value();
      assert k in columns;
      var j :| 0 <= j < |names| && variables[j].Value() == k && Slice(cube.dataset, names[j], lat, lon) == Ok(columns[k]);
      ValueInjective(variables[i], variables[j]);
      assert Renames(cube.variableRenameMap, variables[i], names[j]);
    }
  }

  /** Every named array exists and holds the grid point (`lat`, `lon`). */
  predicate ArraysHoldPoint(ds: Dataset, names: seq<string>, lat: nat, lon: nat)
  {
    forall i :: 0 <= i < |names| ==> names[i] in ds.arrays && lat < ds.arrays[names[i]].lats && lon < ds.arrays[names[i]].lons
  }

  /** All named arrays have the same number of time steps. */
  predicate SameTimeSteps(ds: Dataset, names: seq<string>)
    requires forall i :: 0 <= i < |names| ==> names[i] in ds.arrays
  {
    forall i, j :: 0 <= i < |names| && 0 <= j < |names| ==> |ds.arrays[names[i]].cells| == |ds.arrays[names[j]].cells|
  }

  /**
   * When `get_data` returns a table: every variable has a storage name, both axes exist and are
   * non-empty, every storage array exists and holds the closest grid point, and all of those
   * arrays have the same number of time steps (so that the data frame can be built).
   */
  predicate GetDataSucceeds(cube: ZarrayDataCube, latitude: real, longitude: real, variables: seq<WeatherVariable>)
  {
    var ds := cube.dataset;
    StorageNames(cube.variableRenameMap, variables).Ok? &&
    "latitude" in ds.axes && ds.axes["latitude"] != [] &&
    "longitude" in ds.axes && ds.axes["longitude"] != [] &&
    var names := StorageNames(cube.variableRenameMap, variables).value;
    ArraysHoldPoint(ds, names, ArgMin(ds.axes["latitude"], latitude), ArgMin(ds.axes["longitude"], longitude)) &&
    SameTimeSteps(ds, names)
  }

  /** `get_data` returns a table exactly when `GetDataSucceeds` holds. */
  lemma GetDataOk(cube: ZarrayDataCube, latitude: real, longitude: real, startDate: Timestamp,
                  endDate: Timestamp, variables: seq<WeatherVariable>)
    ensures GetData(cube, latitude, longitude, startDate, endDate, variables).Ok? <==>
            GetDataSucceeds(cube, latitude, longitude, variables)
  {
    var ds := cube.dataset;
    if StorageNames(cube.variableRenameMap, variables).Ok? &&
       "latitude" in ds.axes && ds.axes["latitude"] != [] &&
       "longitude" in ds.axes && ds.axes["longitude"] != [] {
      var names := StorageNames(cube.variableRenameMap, variables).value;
      var lat := ArgMin(ds.axes["latitude"], latitude);
      var lon := ArgMin(ds.axes["longitude"], longitude);
      assert ClosestCoordinateIndex(ds, Latitude, latitude) == Ok(lat);
      assert ClosestCoordinateIndex(ds, Longitude, longitude) == Ok(lon);
      assert GetData(cube, latitude, longitude, startDate, endDate, variables) ==
             (var cs := Columns(ds, variables, names, lat, lon); if cs.Ok? then MakeTable(cs.value) else Err(cs.error));
      TableAtPoint(cube, variables, names, lat, lon);
    }
  }

  /** At a fixed grid point, the table is built iff the arrays hold the point and agree on their time steps. */
  lemma TableAtPoint(cube: ZarrayDataCube, variables: seq<WeatherVariable>, names: seq<string>, lat: nat, lon: nat)
    requires StorageNames(cube.variableRenameMap, variables) == Ok(names)
    ensures var cs := Columns(cube.dataset, variables, names, lat, lon);
      (cs.Ok? && MakeTable(cs.value).Ok?) <==>
      (ArraysHoldPoint(cube.dataset, names, lat, lon) && SameTimeSteps(cube.dataset, names))
  {
    var ds := cube.dataset;
    ColumnsOk(ds, variables, names, lat, lon);
    var cs := Columns(ds, variables, names, lat, lon);
    assert cs.Ok? <==> ArraysHoldPoint(ds, names, lat, lon);
    if cs.Ok? {
      ColumnLengths(cube, variables, names, lat, lon, cs.value);
      SameLengthIffArrays(cube, variables, names, lat, lon, cs.value);
    }
  }

  /** The columns have the same length iff the storage arrays have the same number of time steps. */
  lemma SameLengthIffArrays(cube: ZarrayDataCube, variables: seq<WeatherVariable>, names: seq<string>, lat: nat, lon: nat,
                            columns: map<string, seq<real>>)
    requires |names| == |variables|
    requires columns.Keys == set v | v in variables :: v.Value()
    requires forall i :: 0 <= i < |variables| ==>
      variables[i].Value() in columns && names[i] in cube.dataset.arrays &&
      |columns[variables[i].Value()]| == |cube.dataset.arrays[names[i]].cells|
    ensures SameLength(columns) <==>
      forall i, j :: 0 <= i < |names| && 0 <= j < |names| ==>
        |cube.dataset.arrays[names[i]].cells| == |cube.dataset.arrays[names[j]].cells|
  {
    if SameLength(columns) {
      forall i, j | 0 <= i < |names| && 0 <= j < |names|
        ensures |cube.dataset.arrays[names[i]].cells| == |cube.dataset.arrays[names[j]].cells|
      {
        assert |columns[variables[i].Value()]| == |columns[variables[j].Value()]|;
      }
    }
    if forall i, j :: 0 <= i < |names| && 0 <= j < |names| ==>
         |cube.dataset.arrays[names[i]].cells| == |cube.dataset.arrays[names[j]].cells| {
      forall a, b | a in columns && b in columns ensures |columns[a]| == |columns[b]| {
        var i :| 0 <= i < |variables| && variables[i].Value() == a;
        var j :| 0 <= j < |variables| && variables[j].Value() == b;
      }
    }
  }

  /** Each variable's column is as long as its storage array's time axis. */
  lemma ColumnLengths(cube: ZarrayDataCube, variables: seq<WeatherVariable>, names: seq<string>, lat: nat, lon: nat,
                      columns: map<string, seq<real>>)
    requires StorageNames(cube.variableRenameMap, variables) == Ok(names)
    requires Columns(cube.dataset, variables, names, lat, lon) == Ok(columns)
    ensures forall i :: 0 <= i < |variables| ==>
      variables[i].Value() in columns && names[i] in cube.dataset.arrays &&
      |columns[variables[i].Value()]| == |cube.dataset.arrays[names[i]].cells|
  {
    ColumnsOfVariables(cube, variables, names, lat, lon, columns);
    forall i | 0 <= i < |variables|
      ensures variables[i].Value() in columns && names[i] in cube.dataset.arrays &&
              |columns[variables[i].Value()]| == |cube.dataset.arrays[names[i]].cells|
    {
      var name :| Renames(cube.variableRenameMap, variables[i], name) &&
                  ColumnAt(cube.dataset, name, lat, lon, columns[variables[i].Value()]);
      assert Renames(cube.variableRenameMap, variables[i], names[i]);
    }
  }

  /** The result does not depend on the start and end dates. */
  lemma GetDataIgnoresDates(cube: ZarrayDataCube, latitude: real, longitude: real, s1: Timestamp, e1: Timestamp,
                            s2: Timestamp, e2: Timestamp, variables: seq<WeatherVariable>)
    ensures GetData(cube, latitude, longitude, s1, e1, variables) == GetData(cube, latitude, longitude, s2, e2, variables)
  {
  }
}
