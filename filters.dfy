/** The filter object of GET /properties (index.js): built from the
    `category`, `city` and `area` query parameters, holding those that were
    supplied, each mapped to its raw value. */
module Filters {
  import opened Wrappers
  import opened Documents

  const CategoryField: string := "category"
  const CityField: string := "city"
  const AreaField: string := "area"
  const FilterFields: set<string> := {CategoryField, CityField, AreaField}

  /** The three filter parameters of the query string; None is an absent
      parameter. */
  datatype FilterParams = FilterParams(category: Option<string>, city: Option<string>, area: Option<string>)

  /** JavaScript truthiness of a query-string value: an absent parameter and
      the empty string are both falsy. */
  predicate Supplied(v: Option<string>)
    ensures !Supplied(v) <==> v == None || v == Some("")
  {
    v.Some? && v.value != ""
  }

  /** The parameter that supplies a filter field. */
  function ParamFor(params: FilterParams, field: string): Option<string>
  {
    if field == CategoryField then params.category
    else if field == CityField then params.city
    else if field == AreaField then params.area
    else None
  }

  /** The filter as a comprehension over the recognised fields. */
  function FilterSpec(params: FilterParams): (filter: map<string, string>)
    ensures filter.Keys <= FilterFields
    ensures CategoryField in filter <==> Supplied(params.category)
    ensures CityField in filter <==> Supplied(params.city)
    ensures AreaField in filter <==> Supplied(params.area)
    ensures Supplied(params.category) ==> filter[CategoryField] == params.category.value
    ensures Supplied(params.city) ==> filter[CityField] == params.city.value
    ensures Supplied(params.area) ==> filter[AreaField] == params.area.value
  {
    map field | field in FilterFields && Supplied(ParamFor(params, field)) :: ParamFor(params, field).value
  }

  /** The handler's construction: start from the empty object and add each
      supplied field in turn. */
  method BuildFilter(params: FilterParams) returns (filter: map<string, string>)
    ensures filter == FilterSpec(params)
  {
    filter := map[];
    if Supplied(params.category) {
      filter := filter[CategoryField := params.category.value];
    }
    if Supplied(params.city) {
      filter := filter[CityField := params.city.value];
    }
    if Supplied(params.area) {
      filter := filter[AreaField := params.area.value];
    }
  }

  /** With none of the three parameters supplied the filter is empty. */
  lemma NoParamsNoFilter(params: FilterParams)
    requires !Supplied(params.category) && !Supplied(params.city) && !Supplied(params.area)
    ensures FilterSpec(params) == map[]
  {
  }

  /** A document satisfies one parameter when the parameter is omitted or the
      document's field holds the supplied value. */
  predicate FieldAgrees(p: Property, field: string, v: Option<string>)
  {
    Supplied(v) ==> field in p.fields && p.fields[field] == v.value
  }

  /** A document matches the built filter exactly when it agrees with every
      supplied parameter. */
  lemma MatchesFilterSpec(p: Property, params: FilterParams)
    ensures Matches(p, FilterSpec(params)) <==>
              FieldAgrees(p, CategoryField, params.category)
              && FieldAgrees(p, CityField, params.city)
              && FieldAgrees(p, AreaField, params.area)
  {
    var filter := FilterSpec(params);
    if FieldAgrees(p, CategoryField, params.category)
       && FieldAgrees(p, CityField, params.city)
       && FieldAgrees(p, AreaField, params.area)
    {
      forall field | field in filter
        ensures field in p.fields && p.fields[field] == filter[field]
      {
        assert field == CategoryField || field == CityField || field == AreaField;
      }
    }
  }
}
