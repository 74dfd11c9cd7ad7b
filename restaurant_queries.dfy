/**
  The pure parts of the restaurant list screen: the dollar-sign label of a
  price level and the query builder behind the filter panel.
*/
module RestaurantQueries {
  import opened Wrappers
  import opened FirestoreClient

  /** `priceString(from:)`: one dollar sign per price level 1 to 3, nothing otherwise. */
  function PriceString(price: int): (r: string)
    ensures |r| == if 1 <= price <= 3 then price else 0
    ensures forall i :: 0 <= i < |r| ==> r[i] == '$'
  {
    match price
    case 1 => "$"
    case 2 => "$$"
    case 3 => "$$$"
    case _ => ""
  }

  /** `baseQuery()`: at most 50 documents of the "restaurants" collection. */
  function BaseQuery(): (q: Query)
    ensures q.collection == "restaurants" && q.limit == Some(50)
    ensures q.predicates == [] && q.orderBy == []
  {
    LimitTo(Collection("restaurants"), 50)
  }

  /** The Swift guard `if let s = s, !s.isEmpty`: a filter argument that is set and not empty. */
  predicate Given(s: Option<string>) {
    s.Some? && s.value != ""
  }

  /**
    `query(withCategory:city:price:sortBy:)`: starts from the base query and
    refines it by category, city and price equality and then by an ordering.
  */
  function FilteredQuery(category: Option<string>, city: Option<string>, price: Option<int>, sortBy: Option<string>): (q: Query)
    ensures q.collection == "restaurants" && q.limit == Some(50)
  {
    var filtered := BaseQuery();
    var filtered := if Given(category) then WhereField(filtered, "category", StringValue(category.value)) else filtered;
    var filtered := if Given(city) then WhereField(filtered, "city", StringValue(city.value)) else filtered;
    var filtered := if price.Some? then WhereField(filtered, "price", IntValue(price.value)) else filtered;
    if Given(sortBy) then OrderBy(filtered, sortBy.value) else filtered
  }

  /** The filter arguments of one call to the builder. */
  datatype Filters = Filters(category: Option<string>, city: Option<string>, price: Option<int>, sortBy: Option<string>)

  /** The filters with every empty string read as "no constraint", as the builder reads them. */
  function Normalized(f: Filters): Filters {
    Filters(if Given(f.category) then f.category else None,
            if Given(f.city) then f.city else None,
            f.price,
            if Given(f.sortBy) then f.sortBy else None)
  }

  /** The value of the first equality predicate on `field`, if any. */
  function Lookup(predicates: seq<Predicate>, field: string): Option<Value> {
    if predicates == [] then None
    else if predicates[0].field == field then Some(predicates[0].value)
    else Lookup(predicates[1..], field)
  }

  function StringFilter(predicates: seq<Predicate>, field: string): Option<string> {
    match Lookup(predicates, field)
    case Some(StringValue(s)) => Some(s)
    case _ => None
  }

  function IntFilter(predicates: seq<Predicate>, field: string): Option<int> {
    match Lookup(predicates, field)
    case Some(IntValue(i)) => Some(i)
    case _ => None
  }

  /** Reads back the filters a query constrains: the inverse of the builder. */
  function FiltersOf(q: Query): Filters {
    Filters(StringFilter(q.predicates, "category"),
            StringFilter(q.predicates, "city"),
            IntFilter(q.predicates, "price"),
            if q.orderBy == [] then None else Some(q.orderBy[0]))
  }

  /** Position of a filtered field in the builder's fixed order. */
  function FieldRank(field: string): nat {
    if field == "category" then 0 else if field == "city" then 1 else 2
  }

  /** A category or city predicate exactly when that argument is set and non-empty; a price predicate whenever price is set, whatever its value. */
  lemma PredicatePresence(category: Option<string>, city: Option<string>, price: Option<int>, sortBy: Option<string>, v: Value)
    ensures var ps := FilteredQuery(category, city, price, sortBy).predicates;
      && (IsEqualTo("category", v) in ps <==> Given(category) && v == StringValue(category.value))
      && (IsEqualTo("city", v) in ps <==> Given(city) && v == StringValue(city.value))
      && (IsEqualTo("price", v) in ps <==> price.Some? && v == IntValue(price.value))
  {
  }

  /** Predicates only ever constrain category, city and price, in that order, each at most once. */
  lemma PredicateOrder(category: Option<string>, city: Option<string>, price: Option<int>, sortBy: Option<string>)
    ensures var ps := FilteredQuery(category, city, price, sortBy).predicates;
      && (forall i :: 0 <= i < |ps| ==> ps[i].field == "category" || ps[i].field == "city" || ps[i].field == "price")
      && (forall i, j :: 0 <= i < j < |ps| ==> FieldRank(ps[i].field) < FieldRank(ps[j].field))
  {
  }

  /** At most one ordering, and it is on `sortBy` exactly when `sortBy` is set and non-empty. */
  lemma OrderingPresence(category: Option<string>, city: Option<string>, price: Option<int>, sortBy: Option<string>, field: string)
    ensures var q := FilteredQuery(category, city, price, sortBy);
      && |q.orderBy| <= 1
      && (field in q.orderBy <==> sortBy == Some(field) && field != "")
  {
  }

  /** The filters can be read back from the built query, up to empty strings. */
  lemma {:induction false} FiltersRoundTrip(f: Filters)
    ensures FiltersOf(FilteredQuery(f.category, f.city, f.price, f.sortBy)) == Normalized(f)
  {
    var cat := if Given(f.category) then [IsEqualTo("category", StringValue(f.category.value))] else [];
    var cty := if Given(f.city) then [IsEqualTo("city", StringValue(f.city.value))] else [];
    var prc := if f.price.Some? then [IsEqualTo("price", IntValue(f.price.value))] else [];
    var ps := FilteredQuery(f.category, f.city, f.price, f.sortBy).predicates;
    assert ps == cat + (cty + prc);
    // each field is found in its own segment, past the segments before it
    LookupSkips(cat, cty + prc, "city");
    LookupSkips(cat, cty + prc, "price");
    LookupSkips(cty, prc, "price");
    LookupPastEnd(cty + prc, "category");
    LookupPastEnd(prc, "city");
    LookupPastEnd([], "price");
  }

  /** Looking a field up past a prefix that does not constrain it. */
  lemma {:induction false} LookupSkips(prefix: seq<Predicate>, rest: seq<Predicate>, field: string)
    requires forall i :: 0 <= i < |prefix| ==> prefix[i].field != field
    ensures Lookup(prefix + rest, field) == Lookup(rest, field)
  {
    if prefix == [] {
      assert prefix + rest == rest;
    } else {
      assert (prefix + rest)[0] == prefix[0];
      assert (prefix + rest)[1..] == prefix[1..] + rest;
      LookupSkips(prefix[1..], rest, field);
    }
  }

  /** A field no predicate constrains is not found. */
  lemma {:induction false} LookupPastEnd(predicates: seq<Predicate>, field: string)
    requires forall i :: 0 <= i < |predicates| ==> predicates[i].field != field
    ensures Lookup(predicates, field) == None
  {
    if predicates != [] {
      LookupPastEnd(predicates[1..], field);
    }
  }

  /** Two filter selections build the same query exactly when they agree up to empty strings. */
  lemma SameQueryIffSameFilters(f: Filters, g: Filters)
    ensures FilteredQuery(f.category, f.city, f.price, f.sortBy) == FilteredQuery(g.category, g.city, g.price, g.sortBy) <==> Normalized(f) == Normalized(g)
  {
    FiltersRoundTrip(f);
    FiltersRoundTrip(g);
  }

  /** Clearing every filter gives back the base query. */
  lemma ClearedFiltersGiveBaseQuery()
    ensures FilteredQuery(None, None, None, None) == BaseQuery()
  {
  }

  /** The builder does not range-check price: a level without a label still filters. */
  lemma UnlabelledPriceStillFilters(price: int)
    requires PriceString(price) == ""
    ensures IsEqualTo("price", IntValue(price)) in FilteredQuery(None, None, Some(price), None).predicates
  {
  }
}
