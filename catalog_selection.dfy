/**
 * `CatalogSelectorClass`: a registry of catalogs, chosen from either for a query or by id.
 */
module CatalogSelection {
  import opened Wrappers
  import opened Queries
  import opened Catalogs

  class CatalogSelector {
    /** The registered catalogs, in registration order. */
    var catalogs: seq<Catalog>

    /** `__init__`: the registry holds exactly the given catalogs. */
    constructor (catalogs: seq<Catalog>)
      ensures this.catalogs == catalogs
    {
      this.catalogs := catalogs;
    }

    /**
     * `select_catalog`: the first registered catalog, whatever the query; an empty registry
     * fails as indexing an empty list does.
     */
    function SelectCatalog(query: PointDateRangeQuery): (r: Result<Catalog, CatalogError>)
      reads this
      ensures catalogs == [] <==> r == Err(EmptyRegistry)
      ensures catalogs != [] ==> r == Ok(catalogs[0])
    {
      if catalogs == [] then Err(EmptyRegistry) else Ok(catalogs[0])
    }

    /**
     * `get_catalog_by_id`: the first registered catalog with the given id, searched in
     * registration order; a missing id is an error. The registry is left as it was.
     */
    method GetCatalogById(catalogId: string) returns (r: Result<Catalog, CatalogError>)
      ensures r.Ok? ==> r.value.catalogId == catalogId
      ensures r.Ok? ==> exists i :: 0 <= i < |catalogs| && catalogs[i] == r.value && FirstWithId(catalogs, catalogId, i)
      ensures r.Err? <==> forall i :: 0 <= i < |catalogs| ==> catalogs[i].catalogId != catalogId
      ensures r.Err? ==> r.error == CatalogNotFound(catalogId)
    {
      for i := 0 to |catalogs|
        invariant forall j :: 0 <= j < i ==> catalogs[j].catalogId != catalogId
      {
        if catalogs[i].catalogId == catalogId {
          assert FirstWithId(catalogs, catalogId, i);
          return Ok(catalogs[i]);
        }
      }
      return Err(CatalogNotFound(catalogId));
    }
  }

  /** Position `i` holds the first catalog with id `catalogId`. */
  predicate FirstWithId(catalogs: seq<Catalog>, catalogId: string, i: nat)
  {
    i < |catalogs| && catalogs[i].catalogId == catalogId &&
    forall j :: 0 <= j < i ==> catalogs[j].catalogId != catalogId
  }

  /** Position `i` holds the first registered catalog that can source the query. */
  predicate FirstSourcing(catalogs: seq<Catalog>, query: PointDateRangeQuery, i: nat)
  {
    i < |catalogs| && CanSource(catalogs[i], query) &&
    forall j :: 0 <= j < i ==> !CanSource(catalogs[j], query)
  }

  /**
   * Because every catalog of the model can source every query, returning the first registered
   * catalog is the same as returning the first one that can source the query, and the
   * selection fails exactly when no catalog can.
   */
  lemma SelectCatalogIsFirstSourcing(selector: CatalogSelector, query: PointDateRangeQuery)
    ensures selector.SelectCatalog(query).Ok? <==> exists i :: FirstSourcing(selector.catalogs, query, i)
    ensures selector.SelectCatalog(query).Ok? ==>
      FirstSourcing(selector.catalogs, query, 0) && selector.SelectCatalog(query).value == selector.catalogs[0]
  {
    if selector.catalogs != [] {
      assert FirstSourcing(selector.catalogs, query, 0);
    }
  }

  /**
   * A selector over the one-catalog registry of a local catalog finds it by the id "local",
   * and selects it for every query.
   */
  method LocalRegistry(basePath: string, query: PointDateRangeQuery) returns (found: Result<Catalog, CatalogError>, selected: Result<Catalog, CatalogError>)
    ensures found == Ok(NewLocalCatalog(basePath)) && selected == Ok(NewLocalCatalog(basePath))
  {
    var selector := new CatalogSelector([NewLocalCatalog(basePath)]);
    found := selector.GetCatalogById(LocalCatalogId);
    selected := selector.SelectCatalog(query);
  }
}
