/**
 * The local catalog: a downloader and an uploader that address a zarr store by
 * `base_path/weather_model_group/weather_model_id.zarr`, wired into a catalog whose id is
 * "local" and which claims every query.
 */
module Catalogs {
  import opened Wrappers
  import opened Enums
  import opened Queries
  import opened ZarrayDataCubes

  // ------------------------------------------------------------ paths

  predicate EndsWith(s: string, suffix: string)
  {
    |suffix| <= |s| && s[|s| - |suffix|..] == suffix
  }

  predicate StartsWith(s: string, prefix: string)
  {
    |prefix| <= |s| && s[..|prefix|] == prefix
  }

  /**
   * `posixpath.join(a, b)`: an absolute `b` replaces `a`; otherwise `b` is appended, after a
   * separator unless `a` is empty or already ends in one.
   */
  function JoinPath(a: string, b: string): (r: string)
    ensures EndsWith(r, b)
    ensures (b == [] || b[0] != '/') ==> StartsWith(r, a)
    ensures |b| > 0 && b[0] == '/' ==> r == b
    ensures (b == [] || b[0] != '/') && (a == [] || a[|a| - 1] == '/') ==> r == a + b
    ensures (b == [] || b[0] != '/') && a != [] && a[|a| - 1] != '/' ==> r == a + "/" + b
  {
    if |b| > 0 && b[0] == '/' then b
    else if a == [] || a[|a| - 1] == '/' then a + b
    else a + "/" + b
  }

  /** `posixpath.join(a, b, c)`, which joins left to right. */
  function JoinPath3(a: string, b: string, c: string): (r: string)
    ensures |c| > 0 && c[0] == '/' ==> r == c
    ensures (c == [] || c[0] != '/') && (JoinPath(a, b) == [] || JoinPath(a, b)[|JoinPath(a, b)| - 1] == '/') ==>
      r == JoinPath(a, b) + c
    ensures (c == [] || c[0] != '/') && JoinPath(a, b) != [] && JoinPath(a, b)[|JoinPath(a, b)| - 1] != '/' ==>
      r == JoinPath(a, b) + "/" + c
    ensures EndsWith(r, c)
    ensures (c == [] || c[0] != '/') ==> StartsWith(r, JoinPath(a, b))
  {
    JoinPath(JoinPath(a, b), c)
  }

  /** The part of a path after its last separator. */
  function LastComponent(s: string): (r: string)
    ensures '/' !in r && EndsWith(s, r)
  {
    if s == [] || s[|s| - 1] == '/' then []
    else LastComponent(s[..|s| - 1]) + [s[|s| - 1]]
  }

  /** If a path ends in a separator-free suffix, so does its last component. */
  lemma {:induction false} LastComponentEndsWith(s: string, suffix: string)
    requires EndsWith(s, suffix) && '/' !in suffix
    ensures EndsWith(LastComponent(s), suffix)
  {
    if suffix != [] {
      assert s[|s| - 1] == suffix[|suffix| - 1];
      var s', t' := s[..|s| - 1], suffix[..|suffix| - 1];
      assert s'[|s'| - |t'|..] == t' by {
        assert s'[|s'| - |t'|..] == s[|s| - |suffix|..][..|t'|];
      }
      LastComponentEndsWith(s', t');
      var l := LastComponent(s');
      assert LastComponent(s) == l + [s[|s| - 1]];
      assert (l + [s[|s| - 1]])[|l| + 1 - |suffix|..] == l[|l| - |t'|..] + [s[|s| - 1]];
    }
  }

  /** The file name of a query's store: `weather_model_id + ".zarr"`. */
  function StoreName(query: PointDateRangeQuery): string
  {
    query.weatherModelId + ".zarr"
  }

  /**
   * The path every local strategy computes, `join(base_path, group, id + ".zarr")`: it ends with
   * the store name, its last component ends in ".zarr", and with relative group and id it lies
   * under `base_path`.
   */
  function StorePath(basePath: string, query: PointDateRangeQuery): (path: string)
    ensures path == JoinPath3(basePath, query.weatherModelGroup, StoreName(query))
    ensures EndsWith(path, StoreName(query))
    ensures EndsWith(LastComponent(path), ".zarr")
    ensures ((query.weatherModelGroup == [] || query.weatherModelGroup[0] != '/') && query.weatherModelId != [] &&
             query.weatherModelId[0] != '/') ==> StartsWith(path, basePath)
  {
    var name := StoreName(query);
    var inner := JoinPath(basePath, query.weatherModelGroup);
    var path := JoinPath(inner, name);
    assert path == JoinPath3(basePath, query.weatherModelGroup, name);
    StoreNameEndsWithZarr(query.weatherModelId);
    EndsWithTransitive(path, name, ".zarr");
    LastComponentEndsWith(path, ".zarr");
    StorePathUnderBase(basePath, query);
    path
  }

  /** With a relative model group and id, the two joins only extend the base path. */
  lemma StorePathUnderBase(basePath: string, query: PointDateRangeQuery)
    ensures ((query.weatherModelGroup == [] || query.weatherModelGroup[0] != '/') && query.weatherModelId != [] &&
             query.weatherModelId[0] != '/') ==> StartsWith(JoinPath3(basePath, query.weatherModelGroup, StoreName(query)), basePath)
  {
    var name := StoreName(query);
    var inner := JoinPath(basePath, query.weatherModelGroup);
    if (query.weatherModelGroup == [] || query.weatherModelGroup[0] != '/') && query.weatherModelId != [] && query.weatherModelId[0] != '/' {
      assert name[0] == query.weatherModelId[0];
      StartsWithTransitive(JoinPath(inner, name), inner, basePath);
    }
  }

  /** `id + ".zarr"` ends with the separator-free ".zarr". */
  lemma StoreNameEndsWithZarr(id: string)
    ensures EndsWith(id + ".zarr", ".zarr") && '/' !in ".zarr"
  {
    var s := id + ".zarr";
    assert s[|s| - 5..] == ".zarr";
  }

  lemma StartsWithTransitive(s: string, t: string, u: string)
    requires StartsWith(s, t) && StartsWith(t, u)
    ensures StartsWith(s, u)
  {
    assert s[..|u|] == s[..|t|][..|u|];
  }

  lemma EndsWithTransitive(s: string, t: string, u: string)
    requires EndsWith(s, t) && EndsWith(t, u)
    ensures EndsWith(s, u)
  {
    assert s[|s| - |u|..] == s[|s| - |t|..][|t| - |u|..];
  }

  /** For a separator-free model group and id, the path is exactly "base/group/id.zarr" (or without "base/" when it is empty). */
  lemma StorePathPlain(basePath: string, query: PointDateRangeQuery)
    requires basePath != [] && basePath[|basePath| - 1] != '/'
    requires query.weatherModelGroup != [] && '/' !in query.weatherModelGroup && '/' !in query.weatherModelId
    ensures StorePath(basePath, query) == basePath + "/" + query.weatherModelGroup + "/" + query.weatherModelId + ".zarr"
    ensures LastComponent(StorePath(basePath, query)) == query.weatherModelId + ".zarr"
  {
    var g, name := query.weatherModelGroup, StoreName(query);
    var p1 := basePath + "/" + g;
    assert JoinPath(basePath, g) == p1 by {
      assert g[0] in g;
    }
    assert p1 != [] && p1[|p1| - 1] != '/' by {
      assert p1[|p1| - 1] == g[|g| - 1];
      assert g[|g| - 1] in g;
    }
    StoreNameFree(query.weatherModelId);
    assert StorePath(basePath, query) == p1 + "/" + name;
    LastComponentOfJoin(p1, name);
  }

  /** A separator-free model id gives a separator-free store name that does not start with one. */
  lemma StoreNameFree(id: string)
    requires '/' !in id
    ensures var name := id + ".zarr"; '/' !in name && name[0] != '/'
  {
    var name := id + ".zarr";
    forall i | 0 <= i < |name| ensures name[i] != '/' {
      if i < |id| { assert name[i] in id; } else { assert name[i] == ".zarr"[i - |id|]; }
    }
  }

  /** The last component of `a + "/" + b` is `b` when `b` has no separator. */
  lemma {:induction false} LastComponentOfJoin(a: string, b: string)
    requires '/' !in b
    ensures LastComponent(a + "/" + b) == b
  {
    if b == [] {
    } else {
      var b' := b[..|b| - 1];
      assert (a + "/" + b)[..|a + "/" + b| - 1] == a + "/" + b';
      assert '/' !in b' by { forall i | 0 <= i < |b'| ensures b'[i] != '/' { assert b'[i] == b[i]; } }
      LastComponentOfJoin(a, b');
      assert b' + [b[|b| - 1]] == b;
    }
  }

  // ------------------------------------------------------------ downloader

  datatype CatalogError =
    | StoreNotFound(path: string)   // `zarr.open(path, mode="r")` finds no store
    | OpenFailed(path: string)      // `open(path, "wb")` fails
    | NotImplemented                // `NotImplementedError` from `write_data`
    | EmptyRegistry                 // `IndexError` from `catalogs[0]`
    | CatalogNotFound(id: string)   // `ValueError` from `get_catalog_by_id`

  /** `LocalDataDownloader`: reads zarr stores under a base directory. */
  datatype LocalDataDownloader = LocalDataDownloader(basePath: string)

  /** `LocalDataDownloader._convert_query_to_relative_path`. */
  function DownloadPath(d: LocalDataDownloader, query: PointDateRangeQuery): (path: string)
    ensures EndsWith(path, StoreName(query)) && EndsWith(LastComponent(path), ".zarr")
  {
    StorePath(d.basePath, query)
  }

  /** The download path depends only on the base path, the model group and the model id. */
  lemma DownloadPathDependsOnModel(d: LocalDataDownloader, q1: PointDateRangeQuery, q2: PointDateRangeQuery)
    requires q1.weatherModelGroup == q2.weatherModelGroup && q1.weatherModelId == q2.weatherModelId
    ensures DownloadPath(d, q1) == DownloadPath(d, q2)
  {
  }

  /** The storage names of the local zarr stores. */
  const LocalRenameMap: map<WeatherVariable, string> := map[Temperature := "t2m", WindU := "u10m", WindV := "v10m"]

  /**
   * The local stores rename temperature and the two wind components, and nothing else; no two
   * variables share a storage array.
   */
  lemma LocalRenameMapRenames(v: WeatherVariable, w: WeatherVariable)
    ensures v in LocalRenameMap <==> v == Temperature || v == WindU || v == WindV
    ensures v in LocalRenameMap && w in LocalRenameMap && LocalRenameMap[v] == LocalRenameMap[w] ==> v == w
  {
  }

  /**
   * `download_data`: the cube over the store at the download path, with the local rename map.
   * `stores` stands for the file system: the zarr groups that exist, by path.
   */
  function DownloadData(d: LocalDataDownloader, query: PointDateRangeQuery, stores: map<string, Dataset>): (r: Result<ZarrayDataCube, CatalogError>)
    ensures r.Ok? <==> DownloadPath(d, query) in stores
    ensures r.Ok? ==> r.value.dataset == stores[DownloadPath(d, query)]
    ensures r.Ok? ==> r.value.variableRenameMap == Some(LocalRenameMap)
    ensures r.Err? ==> r.error == StoreNotFound(DownloadPath(d, query))
  {
    var path := DownloadPath(d, query);
    if path !in stores then Err(StoreNotFound(path))
    else Ok(ZarrayDataCube(stores[path], Some(LocalRenameMap)))
  }

  /**
   * Pressure and humidity have no local storage name: asking a locally downloaded cube for
   * either fails with a lookup error for a variable the map lacks.
   */
  lemma LocalCubeLacksPressureAndHumidity(d: LocalDataDownloader, query: PointDateRangeQuery, stores: map<string, Dataset>,
                                          latitude: real, longitude: real, variables: seq<WeatherVariable>)
    requires DownloadData(d, query, stores).Ok?
    requires Pressure in variables || Humidity in variables
    ensures var r := GetData(DownloadData(d, query, stores).value, latitude, longitude, query.startDate, query.endDate, variables);
      r.Err? && r.error.UnmappedVariable? && r.error.variable in {Pressure, Humidity}
  {
    var cube := DownloadData(d, query, stores).value;
    var names := StorageNames(cube.variableRenameMap, variables);
    LocalRenameMapRenames(Pressure, Pressure);
    LocalRenameMapRenames(Humidity, Humidity);
    assert names.Err?;
    var i :| 0 <= i < |variables| && names.error == UnmappedVariable(variables[i]) && variables[i] !in LocalRenameMap;
    LocalRenameMapRenames(variables[i], variables[i]);
    assert GetData(cube, latitude, longitude, query.startDate, query.endDate, variables) == Err(names.error);
  }

  /**
   * Temperature and the wind components are read from "t2m", "u10m" and "v10m", and a request
   * for only those never fails on a lookup of the rename map.
   */
  lemma LocalCubeStorageNames(d: LocalDataDownloader, query: PointDateRangeQuery, stores: map<string, Dataset>,
                              variables: seq<WeatherVariable>)
    requires DownloadData(d, query, stores).Ok?
    requires forall v :: v in variables ==> v == Temperature || v == WindU || v == WindV
    ensures var r := StorageNames(DownloadData(d, query, stores).value.variableRenameMap, variables);
      r.Ok? && forall i :: 0 <= i < |variables| ==> variables[i] in LocalRenameMap && r.value[i] == LocalRenameMap[variables[i]]
  {
    var cube := DownloadData(d, query, stores).value;
    assert cube.variableRenameMap == Some(LocalRenameMap);
    forall v | v in variables ensures v in LocalRenameMap {
      assert v == Temperature || v == WindU || v == WindV;
    }
  }

  // ------------------------------------------------------------ uploader

  /** `LocalDataUploader`: writes zarr stores under a base directory. */
  datatype LocalDataUploader = LocalDataUploader(basePath: string)

  /** `LocalDataUploader._convert_query_to_relative_path`, the same formula as the downloader's. */
  function UploadPath(u: LocalDataUploader, query: PointDateRangeQuery): (path: string)
    ensures EndsWith(path, StoreName(query)) && EndsWith(LastComponent(path), ".zarr")
  {
    StorePath(u.basePath, query)
  }

  /** With equal base paths, every query is uploaded where it would be downloaded from. */
  lemma UploadPathIsDownloadPath(d: LocalDataDownloader, u: LocalDataUploader, query: PointDateRangeQuery)
    requires d.basePath == u.basePath
    ensures UploadPath(u, query) == DownloadPath(d, query)
  {
  }

  /** `write_data`: not implemented, it always fails. */
  function WriteData(data: ZarrayDataCube): (r: Result<bool, CatalogError>)
    ensures r == Err(NotImplemented)
  {
    Err(NotImplemented)
  }

  /**
   * `upload_data`: open the upload path for writing, then write. `writable` stands for the
   * file system: the paths `open(path, "wb")` succeeds on. The upload never succeeds: either
   * the file does not open or the write is not implemented.
   */
  function UploadData(u: LocalDataUploader, data: ZarrayDataCube, query: PointDateRangeQuery, writable: set<string>): (r: Result<bool, CatalogError>)
    ensures r.Err?
    ensures UploadPath(u, query) in writable <==> r.error == NotImplemented
    ensures UploadPath(u, query) !in writable ==> r.error == OpenFailed(UploadPath(u, query))
  {
    var path := UploadPath(u, query);
    if path !in writable then Err(OpenFailed(path)) else WriteData(data)
  }

  // ------------------------------------------------------------ catalogs

  /**
   * `AbstractCatalog` with the local strategies: an id, a downloader and an uploader. It is the
   * only concrete catalog of the model.
   */
  datatype Catalog = Catalog(catalogId: string, downloader: LocalDataDownloader, uploader: LocalDataUploader)

  /** `LocalCatalog.catalog_id`. */
  const LocalCatalogId := "local"

  /** `LocalCatalog(base_path)`: id "local", and both strategies built from the same base path. */
  function NewLocalCatalog(basePath: string): (c: Catalog)
    ensures c.catalogId == LocalCatalogId
    ensures c.downloader.basePath == basePath && c.uploader.basePath == basePath
  {
    Catalog(LocalCatalogId, LocalDataDownloader(basePath), LocalDataUploader(basePath))
  }

  /** A local catalog uploads every query to the path it downloads it from. */
  lemma LocalCatalogPathsCoincide(basePath: string, query: PointDateRangeQuery)
    ensures var c := NewLocalCatalog(basePath); UploadPath(c.uploader, query) == DownloadPath(c.downloader, query)
  {
    var c := NewLocalCatalog(basePath);
    UploadPathIsDownloadPath(c.downloader, c.uploader, query);
  }

  /** `LocalCatalog.can_source`: every query can be sourced locally. */
  function CanSource(c: Catalog, query: PointDateRangeQuery): (r: bool)
    ensures r
  {
    true
  }

  /** `AbstractCatalog.get_data`: the downloader's cube for the query. */
  function CatalogGetData(c: Catalog, query: PointDateRangeQuery, stores: map<string, Dataset>): (r: Result<ZarrayDataCube, CatalogError>)
    ensures r.Ok? <==> DownloadPath(c.downloader, query) in stores
    ensures r.Ok? ==> r.value == ZarrayDataCube(stores[DownloadPath(c.downloader, query)], Some(LocalRenameMap))
    ensures r.Err? ==> r.error == StoreNotFound(DownloadPath(c.downloader, query))
  {
    DownloadData(c.downloader, query, stores)
  }

  /** `AbstractCatalog.upload_data`: the uploader's answer, which is always a failure. */
  function CatalogUploadData(c: Catalog, data: ZarrayDataCube, query: PointDateRangeQuery, writable: set<string>): (r: Result<bool, CatalogError>)
    ensures r.Err?
    ensures UploadPath(c.uploader, query) in writable <==> r.error == NotImplemented
    ensures UploadPath(c.uploader, query) !in writable ==> r.error == OpenFailed(UploadPath(c.uploader, query))
  {
    UploadData(c.uploader, data, query, writable)
  }
}
