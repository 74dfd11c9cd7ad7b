# FireEats restaurant list, modelled in Dafny

This project models the restaurant list screen of the FireEats iOS demo,
`RestaurantsTableViewController`. It covers three parts:

- **Price labels.** `priceString(from:)` turns a price level into a string of dollar signs.
- **The filter query builder.** `baseQuery()` and `query(withCategory:city:price:sortBy:)` build the query.
  - Every query is on the `restaurants` collection and returns at most 50 documents.
  - Equality predicates on category, city and price are appended in that order, then an optional ordering.
- **The live list.** The controller keeps a snapshot listener on its current query and holds the
  restaurants of the latest snapshot beside the documents they came from. It is driven by:
  - `observeQuery()` and `stopObserving()`;
  - the `didSet` observer on `query`;
  - the filter delegate callback and the clear button;
  - the view lifecycle hooks;
  - the snapshot callback;
  - the row-count, select and delete handlers of the table view.

Files:

- `wrappers.dfy`: `Option`, standing for Swift optionals.
- `firestore_client.dfy` (module `FirestoreClient`): an abstract model of the Firestore SDK.
  - Queries are immutable values built by `Collection`, `LimitTo`, `WhereField` and `OrderBy`.
  - The `Firestore` class keeps a table from listener id to `Registration(query, removed)`.
    `AddSnapshotListener` allocates a fresh id. `Remove` marks a registration removed and is idempotent.
  - `Delete` records a delete request on a document reference.
- `restaurant_queries.dfy` (module `RestaurantQueries`): `PriceString`, `BaseQuery` and `FilteredQuery`.
  - The lemmas state which predicates appear, their order and the ordering clause.
  - An inverse, `FiltersOf`, reads the filters back from a query. The round trip is proved, and so is
    the fact that two filter selections give the same query exactly when they agree up to empty strings.
- `restaurants_table.dfy` (module `RestaurantsTable`): the controller as a class.
  - Its fields are `query`, `listener`, `restaurants` and `documents`, plus a reference to the shared `Firestore`.
  - The ghost set `Owned` records the registrations the controller made. Listeners of other screens
    on the same `Firestore` are therefore not constrained.
  - The invariant `Valid()` says two things. At most one of the controller's registrations is live, and it
    is `listener`, registered on the current `query`. Row i's restaurant is the conversion of document i.

`Restaurant(dictionary:)` is defined outside the modelled file. The controller therefore takes the
conversion as a parameter, `decode: Data -> Option<Restaurant>`. The source stops the program when a
document does not convert (line 86). `OnSnapshot` states this as a precondition: every document converts.

Behaviour of the code that the model keeps:

- `stopObserving()` removes the registration but leaves `listener` set (line 96), so `listener` never
  returns to nil once it has been set. Any later assignment to `query` subscribes again through the
  `didSet` at lines 59-66, even when the view has disappeared. `ListensAgainAfterDisappearing` shows this.
- A document that does not convert stops the program (line 86). No row is skipped.
- On a filter change, a controller whose `listener` is already set subscribes twice: once in the `didSet`
  (line 61) and once at line 280. A controller that never observed subscribes once, at line 280.
  The model performs these calls. It proves that exactly one live registration remains, on the new query.
- Every registration a controller method makes is recorded as the controller's own, so no other live
  registration can appear beside the one on the current query.

## Model

| member | source | states |
|---|---|---|
| RestaurantQueries.PriceString | FireEats/RestaurantsTableViewController.swift:23-37 | the label is all dollar signs, one per level for prices 1 to 3, and empty for every other integer |
| RestaurantQueries.BaseQuery | FireEats/RestaurantsTableViewController.swift:99-101 | the base query is the "restaurants" collection with limit 50 and no predicate or ordering |
| RestaurantQueries.FilteredQuery | FireEats/RestaurantsTableViewController.swift:227-249 | whatever the filter arguments, the built query is on "restaurants" with limit 50 |
| RestaurantQueries.PredicatePresence | FireEats/RestaurantsTableViewController.swift:232-242 | a category or city equality predicate appears exactly when that argument is set and non-empty; a price predicate appears exactly when price is set, with no range check |
| RestaurantQueries.PredicateOrder | FireEats/RestaurantsTableViewController.swift:228-242 | predicates only constrain category, city and price, strictly in that order, so each at most once; with PredicatePresence and OrderingPresence, nothing but the given filters is in the query, because every call starts from the base query |
| RestaurantQueries.OrderingPresence | FireEats/RestaurantsTableViewController.swift:244-246 | at most one ordering; it is on sortBy exactly when sortBy is set and non-empty |
| RestaurantQueries.FiltersRoundTrip | FireEats/RestaurantsTableViewController.swift:227-249 | reading the filters back from a built query gives the arguments, with empty strings read as unset |
| RestaurantQueries.SameQueryIffSameFilters | FireEats/RestaurantsTableViewController.swift:227-249 | two filter selections build equal queries if and only if they agree up to empty strings |
| RestaurantQueries.ClearedFiltersGiveBaseQuery | FireEats/RestaurantsTableViewController.swift:227-249 | building with no filter at all gives exactly the base query |
| RestaurantQueries.UnlabelledPriceStillFilters | FireEats/RestaurantsTableViewController.swift:240-242 | a price level that has no dollar label (outside 1 to 3) still becomes a price predicate |
| FirestoreClient.WithListener | FireEats/RestaurantsTableViewController.swift:76 | registering a listener adds exactly one live registration, on the given query, and changes no other |
| FirestoreClient.WithRemoved | FireEats/RestaurantsTableViewController.swift:96 | removing a registration makes exactly that one not live, keeps its query and changes no other |
| FirestoreClient.RemoveIsIdempotent | FireEats/RestaurantsTableViewController.swift:95-97 | removing a registration twice is the same as removing it once |
| FirestoreClient.Firestore.AddSnapshotListener | FireEats/RestaurantsTableViewController.swift:76 | returns an id not registered before and adds a live registration on the query under it |
| FirestoreClient.Firestore.Remove | FireEats/RestaurantsTableViewController.swift:96 | the registration table becomes the table with that registration removed |
| FirestoreClient.Firestore.Delete | FireEats/RestaurantsTableViewController.swift:213-218 | appends one delete request for the reference and leaves registrations alone |
| RestaurantsTable.DecodeAll | FireEats/RestaurantsTableViewController.swift:81-88 | converting a snapshot gives one restaurant per document, in order, each the conversion of its document |
| RestaurantsTable.AlignedIsDecodeAll | FireEats/RestaurantsTableViewController.swift:81-90 | restaurants aligned with the documents are exactly the conversion of those documents |
| RestaurantsTable.RestaurantsTableViewController.constructor | FireEats/RestaurantsTableViewController.swift:56-68 | a new controller has no rows, no query and no listener, and satisfies the invariant |
| RestaurantsTable.RestaurantsTableViewController.AtMostOneLiveListener | FireEats/RestaurantsTableViewController.swift:59-97 | in every valid state at most one of the controller's registrations is live, and it is `listener`, on the current query |
| RestaurantsTable.RestaurantsTableViewController.ObserveQuery | FireEats/RestaurantsTableViewController.swift:70-93 | without a query nothing changes; otherwise the old registration is removed and exactly one fresh live registration is on the current query; every registration it adds is the controller's own; other screens' registrations, delete requests and the rows are untouched |
| RestaurantsTable.RestaurantsTableViewController.StopObserving | FireEats/RestaurantsTableViewController.swift:95-97 | no registration of the controller stays live, and `listener` keeps its old value |
| RestaurantsTable.RestaurantsTableViewController.SetQuery | FireEats/RestaurantsTableViewController.swift:59-66 | the query becomes the new one; if a listener was ever set, the old registration is removed and exactly one fresh live registration is on the new query, else nothing is registered; every registration it adds is the controller's own; other screens' registrations, delete requests and the rows are untouched |
| RestaurantsTable.RestaurantsTableViewController.ViewDidLoad | FireEats/RestaurantsTableViewController.swift:108-115 | the query becomes the base query; a controller that never listened does not start listening, one that did listens to exactly the base query on a fresh registration; new registrations are the controller's own; other screens' registrations, delete requests and the rows are untouched |
| RestaurantsTable.RestaurantsTableViewController.ViewWillAppear | FireEats/RestaurantsTableViewController.swift:117-120 | without a query nothing changes; with one, the controller listens to exactly that query on a fresh registration of its own; other screens' registrations, delete requests and the rows are untouched |
| RestaurantsTable.RestaurantsTableViewController.ViewWillDisappear | FireEats/RestaurantsTableViewController.swift:131-134 | the registration table becomes the one with `listener` removed (unchanged if it was never set), so no registration of the controller stays live, while `listener` stays set; delete requests are untouched |
| RestaurantsTable.RestaurantsTableViewController.DidSelectFilters | FireEats/RestaurantsTableViewController.swift:251-281 | the query is the one built from the new filters alone, with exactly one live registration on it, freshly made, so the one live before is gone, whatever the earlier state; every registration added is the controller's own; other screens' registrations, delete requests and the rows are untouched |
| RestaurantsTable.RestaurantsTableViewController.DidTapClearButton | FireEats/RestaurantsTableViewController.swift:169-172 | after clearing, the query is the base query and the controller listens to exactly it on a fresh registration; every registration added is the controller's own; other screens' registrations, delete requests and the rows are untouched |
| RestaurantsTable.RestaurantsTableViewController.OnSnapshot | FireEats/RestaurantsTableViewController.swift:76-92 | a failed push leaves restaurants and documents as they were; a snapshot replaces both together: the documents become the snapshot's and restaurant i is the conversion of document i |
| RestaurantsTable.RestaurantsTableViewController.NumberOfRows | FireEats/RestaurantsTableViewController.swift:192-194 | the row count is the number of restaurants, which equals the number of documents |
| RestaurantsTable.RestaurantsTableViewController.DidSelectRow | FireEats/RestaurantsTableViewController.swift:198-205 | the restaurant and the document reference come from the same row, and the restaurant is that document's conversion |
| RestaurantsTable.RestaurantsTableViewController.CommitEditing | FireEats/RestaurantsTableViewController.swift:207-221 | a delete appends one delete request for the row's document reference; restaurants, documents and registrations do not change |

## Left out

- UIKit: outlets, layout, fonts, colours, filter label text and visibility (lines 48-54, 113-114, 258-277, 285-333). These are presentation only.
- `tableView(_:cellForRowAt:)` and `populate(restaurant:)` (lines 184-190, 314-331) fill a cell's labels and images. This is presentation. Star rounding of `averageRating` is floating point, and image loading uses SDWebImage.
- The sign-in gate in `viewDidAppear` (lines 122-129) belongs to the FirebaseUI authentication SDK.
- Seed data (`didTapPopulateButton`, lines 136-167) and `randomImageURL` (lines 39-44) depend on `arc4random`, Firestore writes and a network URL.
- `didTapFilterButton` (lines 174-176) only presents the filter screen. The filter screen's own `clearFilters()` is not part of this model.
- `deinit` (lines 178-180) runs the same `listener?.remove()` as `StopObserving`. Object teardown is not modelled.
- Firestore query execution, transport, error logging and delete completion (lines 78, 214-218) belong to the SDK. Only the registration table and the delete requests are modelled.
- RestaurantsTable.RestaurantsTableViewController.OnSnapshot: may be called whether or not the registration that delivers it is still live. Whether a removed listener can still fire, and on which thread, is SDK behaviour that the source does not show.
- `Restaurant(dictionary:)` is not part of this model. It is the `decode` parameter of the controller.
- Swift's out-of-range crash on `restaurants[indexPath.row]` and `documents[indexPath.row]` (lines 187, 202-203, 213) is modelled by the row-index `requires` of DidSelectRow and CommitEditing, not as an error result.
- RestaurantsTable.RestaurantsTableViewController.DidSelectRow: returns the restaurant and the reference instead of pushing a detail screen. The random title image is left out.
