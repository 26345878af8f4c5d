# weather_catalog in Dafny

A model of the core of the `weather_catalog` library, which answers point weather queries from
zarr data cubes. The model has four parts:

- **Parameter mapping of the base model.**
  - `create_params` turns a model's field declarations into a flat dictionary of UI parameters. Nested models give dotted keys (`baz.qux`).
  - `_create_param_type_args` picks each parameter's schema type.
  - `_unflatten_params` turns the flat dictionary the UI sends back into nested dictionaries.
  - `_flatten_params_dict` is the inverse mapping.
- **Point extraction from a zarr data cube.**
  - `ZarrayDataCube.get_data` resolves each variable's storage name (through the cube's rename map, or the variable's own value).
  - It finds the grid point closest to the requested location (`_closest_coodinate_index`, an argmin with first-index tie-break).
  - For each variable, it returns the full time series stored at that point, in a column named by the variable's value.
- **Query resolution.** `QueryResolver.resolve` forwards a point query's location, dates and single variable to the cube.
- **Catalogs.**
  - The local downloader and uploader both address a store as `join(base_path, weather_model_group, weather_model_id + ".zarr")`.
  - The downloader attaches a fixed rename map. The uploader always fails.
  - A catalog delegates to its two strategies. The local catalog has id `"local"` and claims every query.
  - The catalog selector returns the first registered catalog, or looks one up by id.

Modules, one per file (files are named after modules):

| file | module | models |
|---|---|---|
| wrappers.dfy | Wrappers | `Option`, and `Result` for raised exceptions |
| enums.dfy | Enums | `WeatherVariable`, `Resolution`, `Frequency` |
| queries.dfy | Queries | `PointDateRangeQuery`, `PointLocation`, datetimes as opaque values |
| dotted_keys.dfy | DottedKeys | `key.split(".")` and the `f"{key}.{subkey}"` join |
| nested_params.dfy | NestedParams | `_flatten_params_dict`, `_unflatten_params`, and their round trips |
| param_schema.dfy | ParamSchema | `_create_param_type_args`, `_create_param`, `_create_params_dict` |
| zarray_data_cube.dfy | ZarrayDataCubes | `get_data`, `_closest_coodinate_index` |
| query_resolution.dfy | QueryResolution | `QueryResolver` |
| catalogs.dfy | Catalogs | local downloader, uploader and catalog; `AbstractCatalog` delegation |
| catalog_selection.dfy | CatalogSelection | `CatalogSelectorClass` (a class over a `seq` of catalogs) |

Modelling choices:

- **Dictionaries.**
  - A nested parameter dictionary is a `map` from keys to `Leaf(param)` or `Node(map)`, because Python dict equality ignores order.
  - The flat dictionary given to `_unflatten_params` is an ordered list of items. When keys conflict, the result depends on their order.
- **Raised exceptions.** They become the `Err` case of a `Result`:
  - `KeyError`, `IndexError` and `ValueError`;
  - the `TypeError` from walking into a non-dictionary;
  - `NotImplementedError`.
- **The two imperative loops.** They are methods proved equal to a specification function:
  - `FlattenParams`, the accumulator loop of `_flatten_params_dict`;
  - `UnflattenParams`, the item loop of `_unflatten_params`.
- **The registry.** It is a class with a `seq` field, and `GetCatalogById` is its `for` loop.
- **External state.**
  - Coordinates are exact `real`s.
  - The file system is a parameter: for reads, the map of existing zarr groups by path; for writes, the set of writable paths.

The selector's docstring says it selects "a catalog based on a query" (catalog_selector.py:8-9). `select_catalog` returns `catalogs[0]` whatever the query, marked "for testing" (catalog_selector.py:16), and the model does the same.
`CatalogSelection.SelectCatalogIsFirstSourcing` shows that this is also the first catalog that can source the query, since every modelled catalog can source every query.

## Model

| member | source | states |
|---|---|---|
| Enums.VariableValues | python/weather_catalog/enums/weather_variable.py:4-9 | `[x.value for x in WeatherVariable]`: one value per member, in declaration order |
| Enums.VariableFromValue | python/weather_catalog/enums/weather_variable.py:4-9 | lookup by value finds a member with that value, and fails only when no member has it |
| Enums.AllVariablesExact | python/weather_catalog/enums/weather_variable.py:4-9 | the enumeration has exactly five distinct members |
| Enums.ValueInjective | python/weather_catalog/enums/weather_variable.py:5-9 | two members have equal values iff they are equal; lookup by value returns the member |
| Enums.VariableValuesExact | python/weather_catalog/enums/weather_variable.py:5-9 | the values are "temperature", "pressure", "humidity", "wind_u", "wind_v", each once |
| Enums.ResolutionValueInjective | python/weather_catalog/enums/resolution.py:4-9 | the five resolutions have five different values |
| DottedKeys.Split | python/weather_catalog/basemodel.py:67 | `key.split(".")` gives at least one piece, no piece has a dot, a dot-free key is its own single piece |
| DottedKeys.SplitOfDotted | python/weather_catalog/basemodel.py:162 | splitting `f"{k}.{s}"` for a dot-free `k` gives `k` followed by the pieces of `s` |
| DottedKeys.JoinSplit | python/weather_catalog/basemodel.py:67 | joining the pieces of a key with "." gives the key back |
| DottedKeys.SplitJoin | python/weather_catalog/basemodel.py:162 | splitting the join of dot-free pieces gives the pieces back |
| DottedKeys.SplitInjective | python/weather_catalog/basemodel.py:67 | keys with equal pieces are equal |
| NestedParams.Flatten | python/weather_catalog/basemodel.py:137-170 | the flattened dictionary holds no nested dictionary |
| NestedParams.FlattenParams | python/weather_catalog/basemodel.py:150-170 | the accumulator loop computes `Flatten`; a dictionary without nested values is returned unchanged |
| NestedParams.Prefixed | python/weather_catalog/basemodel.py:161-164 | every sub-key `s` reappears as `k.s` with its value, and there are no other keys |
| NestedParams.FlattenEntries | python/weather_catalog/basemodel.py:157-169 | leaf entries keep their key and value; each nested `k -> {s: w}` gives `k.s -> w`; no other key is produced |
| NestedParams.FlattenLeafAt | python/weather_catalog/basemodel.py:137-170 | with dot-free keys, a flat key holds `v` iff following its pieces through the nested dictionary reaches leaf `v` |
| NestedParams.InsertPath | python/weather_catalog/basemodel.py:66-74 | fails iff the walk along the pieces meets a value that is not a dictionary; on success the value is a leaf at the path, the top-level keys gain only the path's first piece, and every other top-level entry is unchanged |
| NestedParams.InsertPathLeaves | python/weather_catalog/basemodel.py:66-74 | inserting a path that is not a prefix of, or extended by, an existing leaf path succeeds and adds exactly that leaf |
| NestedParams.UnflattenStep | python/weather_catalog/basemodel.py:66-76 | one item fails iff a proper prefix of its key's pieces reaches a non-dictionary, and the error names one of those pieces; on success the value is a leaf at the key's pieces, the top-level keys gain only the first piece, and other top-level entries are unchanged |
| NestedParams.UnflattenTopKeys | python/weather_catalog/basemodel.py:64-77 | `Unflatten`, the item loop as a function: the top-level keys of the result are exactly the first pieces of the item keys, and a failure names a piece of some item's key |
| NestedParams.UnflattenParams | python/weather_catalog/basemodel.py:64-77 | the item loop computes `Unflatten`, including the first error |
| NestedParams.UnflattenFailureSticks | python/weather_catalog/basemodel.py:64-77 | once an item raises, the later items do not change the outcome |
| NestedParams.UnflattenStepIsInsert | python/weather_catalog/basemodel.py:66-76 | both branches of the item loop (dotted key and plain key) insert the value along the key's dot-separated pieces |
| NestedParams.UnflattenLeaves | python/weather_catalog/basemodel.py:39-77 | items whose key pieces are prefix-free unflatten without error, into dot-free keys and no empty dictionary, and the leaves of the result are exactly the items, each at its key's pieces |
| NestedParams.UnflattenFlatten | python/weather_catalog/basemodel.py:39-170 | `unflatten(flatten(d)) == d` for dictionaries with dot-free keys and no empty sub-dictionaries, in any item order |
| NestedParams.FlattenUnflatten | python/weather_catalog/basemodel.py:39-170 | `flatten(unflatten(items))` is the dictionary of the items, for prefix-free items |
| ParamSchema.CreateParamTypeArgs | python/weather_catalog/basemodel.py:201-247 | datetime gives type "string" with format "date-time"; date gives "string" with format "date"; an enumeration gives "string" with `enum` holding the member values in order; bool, int, float and str give "boolean", "integer", "number" and "string"; it succeeds exactly for these seven, and any other class is a `ValueError` |
| ParamSchema.TypeArgsDistinguish | python/weather_catalog/basemodel.py:215-245 | two supported annotations give equal type arguments only when they are equal, or are enumerations with equal values |
| ParamSchema.WeatherVariableTypeArgs | python/weather_catalog/basemodel.py:225-229 | a `WeatherVariable` field is a string restricted to the five values, in declaration order |
| ParamSchema.DefaultOrNone | python/weather_catalog/basemodel.py:192-196 | the declared default, or `None` when it is undefined |
| ParamSchema.Lookup | python/weather_catalog/basemodel.py:131-134 | the comprehension keeps the last field of a given name; it finds one iff some field has that name |
| ParamSchema.CreateParam | python/weather_catalog/basemodel.py:172-199 | a nested model gives a flat dictionary of parameters |
| ParamSchema.CreateParamShape | python/weather_catalog/basemodel.py:186-199 | a nested model gives its parameters dictionary; other fields give `Param(default or None, type args, description)`; a dictionary comes back iff the field is a model |
| ParamSchema.CreateNested | python/weather_catalog/basemodel.py:131-134 | the comprehension's keys are field names (no dot), and its nested values are flat |
| ParamSchema.CreateParamsDict | python/weather_catalog/basemodel.py:93-135 | the result holds parameters only |
| ParamSchema.CreateParamOk | python/weather_catalog/basemodel.py:172-199 | a field yields a parameter iff its annotation is supported at every depth |
| ParamSchema.CreateNestedOk | python/weather_catalog/basemodel.py:131-134 | the comprehension succeeds iff every remaining field is supported |
| ParamSchema.CreateParamsDictOk | python/weather_catalog/basemodel.py:79-135 | `create_params` succeeds iff every field at every depth is supported |
| ParamSchema.CreateNestedEntries | python/weather_catalog/basemodel.py:131-134 | one key per field name, holding the parameter of the field kept for that name |
| ParamSchema.ParamsDictFields | python/weather_catalog/basemodel.py:93-135 | every generated key, split at its dots, is a path of fields through nested models, and its value is that field's parameter |
| ParamSchema.ParamsDictHasField | python/weather_catalog/basemodel.py:93-135 | every path of fields through nested models is a generated key, holding that field's parameter |
| ParamSchema.FieldAtPrefixFree | python/weather_catalog/basemodel.py:186-189 | a field path ends at a non-model field, so no field path is a proper prefix of another |
| ParamSchema.ParamsPrefixFree | python/weather_catalog/basemodel.py:93-170 | no generated key's pieces are a prefix of another's |
| ParamSchema.ParamsUnflatten | python/weather_catalog/basemodel.py:32-135 | the generated parameters, sent back in any order, unflatten without error; the nested leaves are exactly the fields, each with its parameter; it is about the generated `Param` values sent back under their keys, not arbitrary user values |
| ParamSchema.FooParams | python/weather_catalog/basemodel.py:106-121 | the documented `Foo`/`BarClass` example gives exactly the keys `bar`, `baz.qux`, `baz.quz` |
| ZarrayDataCubes.ArgMin | python/weather_catalog/data/zarray_data_cube.py:72 | an index in range whose distance to the value is minimal, the first such index on ties |
| ZarrayDataCubes.CoordinateNamesDistinct | python/weather_catalog/data/zarray_data_cube.py:24-28 | `_coordinate_rename_map`: the axes are stored as "latitude", "longitude" and "time", a different name for each coordinate |
| ZarrayDataCubes.ClosestCoordinateIndex | python/weather_catalog/data/zarray_data_cube.py:68-72 | a missing axis is a `KeyError`; an empty axis is an argmin error; a present, non-empty axis gives exactly the argmin over it |
| ZarrayDataCubes.StorageNames | python/weather_catalog/data/zarray_data_cube.py:51-54 | with a rename map: succeeds iff every variable is mapped, and fails on the first unmapped one; without a map, each name is the variable's value |
| ZarrayDataCubes.Slice | python/weather_catalog/data/zarray_data_cube.py:60-62 | `array[:, lat, lon]`: a missing array is a `KeyError` and an out-of-range index an `IndexError`; it succeeds exactly when the array exists and holds the point, and then gives the whole first axis at that point |
| ZarrayDataCubes.Columns | python/weather_catalog/data/zarray_data_cube.py:59-64 | one column per requested variable, named by its value |
| ZarrayDataCubes.ColumnsOk | python/weather_catalog/data/zarray_data_cube.py:59-64 | the comprehension succeeds iff every slice does; otherwise its error is a slice's |
| ZarrayDataCubes.ColumnsContent | python/weather_catalog/data/zarray_data_cube.py:59-64 | each column is the slice under the storage name of a variable whose value names it |
| ZarrayDataCubes.MakeTable | python/weather_catalog/data/zarray_data_cube.py:66 | `pd.DataFrame(columns)` succeeds iff all columns have the same length, and keeps them |
| ZarrayDataCubes.GetData | python/weather_catalog/data/zarray_data_cube.py:30-66 | columns keyed by variable value, one per requested variable, of equal length; an unmapped variable fails first, then a missing latitude axis, then a missing longitude axis |
| ZarrayDataCubes.GetDataOk | python/weather_catalog/data/zarray_data_cube.py:51-66 | `get_data` returns a table exactly when every variable has a storage name, both axes exist and are non-empty, every storage array holds the closest grid point, and those arrays have the same number of time steps |
| ZarrayDataCubes.TableAtPoint | python/weather_catalog/data/zarray_data_cube.py:59-66 | at a fixed grid point, the comprehension and `pd.DataFrame` both succeed exactly when every storage array holds the point and all have the same number of time steps |
| ZarrayDataCubes.GetDataColumns | python/weather_catalog/data/zarray_data_cube.py:51-66 | each variable's column is the series its storage array holds at the argmin latitude and longitude |
| ZarrayDataCubes.ColumnsOfVariables | python/weather_catalog/data/zarray_data_cube.py:59-64 | each variable's column comes from that variable's own storage name |
| ZarrayDataCubes.GetDataIgnoresDates | python/weather_catalog/data/zarray_data_cube.py:34 | the result does not depend on the start or end date |
| QueryResolution.ResolvePointDateRange | python/weather_catalog/query_resolution/query_resolver.py:22-34 | the cube's `get_data` on the query's latitude, longitude, start and end dates and `[query.variable]`, unchanged; on success exactly one column, named by the variable; a cube that cannot map the variable fails with it |
| QueryResolution.Resolve | python/weather_catalog/query_resolution/query_resolver.py:15-20 | every query takes the point/date-range path: the result is the cube's `get_data` on the query's fields, with the same single-column result |
| QueryResolution.ResolveColumn | python/weather_catalog/query_resolution/query_resolver.py:28-34 | the one column is the variable's series at the grid point closest to the query's location |
| QueryResolution.ResolveOk | python/weather_catalog/query_resolution/query_resolver.py:15-34 | a query is answered exactly when the cube can serve its one variable at its location (`GetDataSucceeds`) |
| QueryResolution.ResolveDependsOnLocationAndVariable | python/weather_catalog/query_resolution/query_resolver.py:28-33 | queries that agree on location and variable get the same answer |
| Catalogs.JoinPath | python/weather_catalog/catalog/local_catalog/local_data_downloader.py:29-31 | `posixpath.join(a, b)`: an absolute `b` is the result; otherwise `a + b` when `a` is empty or ends in "/", and `a + "/" + b` when it does not; the result always ends with `b` |
| Catalogs.JoinPath3 | python/weather_catalog/catalog/local_catalog/local_data_downloader.py:29-31 | the three-argument join, left to right, with `p = join(a, b)`: an absolute `c` is the result; otherwise `p + c` when `p` is empty or ends in "/", and `p + "/" + c` when it does not |
| Catalogs.StorePath | python/weather_catalog/catalog/local_catalog/local_data_downloader.py:28-31 | the path is `join(base_path, group, id + ".zarr")`; it ends with `id + ".zarr"`; its last component ends in ".zarr"; with a relative group and id it lies under `base_path` |
| Catalogs.StorePathPlain | python/weather_catalog/catalog/local_catalog/local_data_downloader.py:28-31 | with separator-free parts the path is `base/group/id.zarr` and its last component is `id.zarr` |
| Catalogs.DownloadPath | python/weather_catalog/catalog/local_catalog/local_data_downloader.py:28-31 | the download path ends with `id + ".zarr"` and its last component ends in ".zarr" |
| Catalogs.DownloadPathDependsOnModel | python/weather_catalog/catalog/local_catalog/local_data_downloader.py:28-31 | the path depends only on base path, model group and model id |
| Catalogs.DownloadData | python/weather_catalog/catalog/local_catalog/local_data_downloader.py:16-26 | succeeds iff a store exists at the download path; the cube wraps that store with the rename map {temperature: t2m, wind_u: u10m, wind_v: v10m} |
| Catalogs.LocalRenameMapRenames | python/weather_catalog/catalog/local_catalog/local_data_downloader.py:21-25 | the local rename map covers temperature and the two wind components and nothing else, and no two variables share a storage name |
| Catalogs.LocalCubeLacksPressureAndHumidity | python/weather_catalog/catalog/local_catalog/local_data_downloader.py:19-26 | asking a locally downloaded cube for pressure or humidity fails with a lookup error for one of them |
| Catalogs.LocalCubeStorageNames | python/weather_catalog/catalog/local_catalog/local_data_downloader.py:21-25 | temperature and the wind components resolve through the rename map without error |
| Catalogs.UploadPath | python/weather_catalog/catalog/local_catalog/local_data_uploader.py:18-21 | the upload path ends with `id + ".zarr"` and its last component ends in ".zarr" |
| Catalogs.UploadPathIsDownloadPath | python/weather_catalog/catalog/local_catalog/local_data_uploader.py:18-21 | with equal base paths, a query is uploaded where it is downloaded from |
| Catalogs.WriteData | python/weather_catalog/catalog/local_catalog/local_data_uploader.py:23-24 | always raises `NotImplementedError` |
| Catalogs.UploadData | python/weather_catalog/catalog/local_catalog/local_data_uploader.py:13-16 | never returns normally: the open fails, or else the write is not implemented |
| Catalogs.NewLocalCatalog | python/weather_catalog/catalog/local_catalog/local_catalog.py:15-23 | id `LocalCatalogId`, which is "local" (local_catalog.py:15); downloader and uploader built from the same base path |
| Catalogs.LocalCatalogPathsCoincide | python/weather_catalog/catalog/local_catalog/local_catalog.py:20-23 | a local catalog's upload and download paths coincide for every query |
| Catalogs.CanSource | python/weather_catalog/catalog/local_catalog/local_catalog.py:25-26 | true for every query |
| Catalogs.CatalogGetData | python/weather_catalog/catalog/abstract_catalog.py:22-23 | the downloader's result: the store at the download path with the local rename map, or its not-found error |
| Catalogs.CatalogUploadData | python/weather_catalog/catalog/abstract_catalog.py:25-26 | the uploader's result: always an error, `NotImplementedError` exactly when the upload path can be opened, and the open failure otherwise |
| CatalogSelection.CatalogSelector.constructor | python/weather_catalog/catalog/catalog_selector.py:12-13 | the registry holds exactly the given catalogs |
| CatalogSelection.CatalogSelector.SelectCatalog | python/weather_catalog/catalog/catalog_selector.py:15-16 | the first registered catalog whatever the query; an empty registry is an `IndexError` |
| CatalogSelection.CatalogSelector.GetCatalogById | python/weather_catalog/catalog/catalog_selector.py:18-22 | the first catalog in registration order with that id, so it has the id; fails iff no catalog has it; the registry is not modified |
| CatalogSelection.SelectCatalogIsFirstSourcing | python/weather_catalog/catalog/catalog_selector.py:15-16 | returning the first catalog coincides with returning the first that can source the query |
| CatalogSelection.LocalRegistry | python/weather_catalog/catalog/all_catalogs.py:6-10 | over the one-local-catalog registry, lookup of "local" and selection both return that catalog |

## Left out

- The S3 catalog and its session, the airflow DAG, and the older `weather_catalog/` tree: network I/O, orchestration, or near-copies of the modelled files.
- `AbstractCatalog.can_source` and the abstract downloader, uploader and data-cube interfaces.
  - Interfaces are not available in this model. `Catalog` is a record of an id and the local downloader and uploader, and `ZarrayDataCube` is the only cube.
  - So `can_source` is not stated to be abstract.
- `from_params` constructing and validating a pydantic model after unflattening (basemodel.py:32-36): pydantic validation is foreign code. Only the unflattening is modelled.
- `zarr.open`, numpy and pandas.
  - Stores are maps of named axes and rectangular three-dimensional arrays. Tables are maps from column name to series.
  - Column order and the DataFrame index are not modelled.
- Floating point. Coordinates are exact reals, so NaN handling and rounding in `np.argmin` are not modelled.
- Datetimes are opaque values. `get_data` does not filter by time, and neither does the model.
- `_coordinate_index_map` (zarray_data_cube.py:18-22): it is declared but never read.
- `Coordinate` and `Frequency`. Their enumeration files are not part of this model. `Coordinate` is a three-case datatype with its storage names; `Frequency` is carried as a string.
- The import-time `all_catalogs` list and `CatalogSelectorSingleton`. The registry is a constructor argument; `LocalRegistry` shows the one-catalog case.
- Real file I/O in `upload_data`. Opening the file is a membership test in the set of writable paths.
- NestedParams.Flatten: only `Flattenable` dictionaries are in scope, meaning every dictionary holding a nested one has dot-free keys.
  - The source also accepts dotted keys beside nested dictionaries, where flattened keys can collide and the later item wins in iteration order.
  - The guard for a non-dictionary argument (basemodel.py:150-151) cannot arise on a `map`.
- NestedParams.UnflattenParams: updates through the aliased `current_dict` are modelled as a recursive update of values (`InsertPath`). Aliasing between sub-dictionaries is not modelled.
- ParamSchema.CreateParam, ParamSchema.CreateNested, ParamSchema.CreateParamsDict: their own contracts state only shape, because they form one mutual recursion. Success and content are stated in `CreateParamOk`, `CreateNestedOk`, `CreateParamsDictOk`, `CreateNestedEntries`, `ParamsDictFields` and `ParamsDictHasField`.
- ParamSchema.CreateParamTypeArgs: annotations are a closed datatype of type tags. `issubclass` on a non-class annotation raises `TypeError`; this is `NotAClass`.
- `PointDateRangeQuery` also carries `resolution`, a field of the base `Query` record in the older tree. python/weather_catalog/query/query.py is not part of this model. No modelled operation reads the field.
- `os.path.join` is modelled as POSIX `posixpath.join`, with "/" as the only separator. Windows paths are not modelled.
- A zarr group has one namespace for coordinate axes and data arrays. `Dataset` keeps them in two maps, so the model does not rule out an axis and an array with the same name.
- `CatalogSelectorClass.__init__` stores the caller's list itself. Later changes to that list through another reference would show in the selector; the model copies the sequence, so this aliasing is not captured.
