/**
  The restaurant list screen: a view controller that keeps one live snapshot
  listener on its current query, holds the restaurants of the latest snapshot
  beside the documents they came from, and answers the table view's row
  requests from them.
*/
module RestaurantsTable {
  import opened Wrappers
  import opened FirestoreClient
  import opened RestaurantQueries

  /** A restaurant record as the list displays it. */
  datatype Restaurant = Restaurant(name: string, category: string, city: string, price: int,
                                   ratingCount: int, averageRating: real)

  /** `UITableViewCellEditingStyle`. */
  datatype EditingStyle = NoEditing | Delete | Insert

  /** Every document of a snapshot converts to a restaurant. */
  predicate AllDecode(decode: Data -> Option<Restaurant>, documents: seq<DocumentSnapshot>) {
    forall i :: 0 <= i < |documents| ==> decode(documents[i].data).Some?
  }

  /** Row i shows the restaurant converted from document i. */
  predicate Aligned(decode: Data -> Option<Restaurant>, restaurants: seq<Restaurant>, documents: seq<DocumentSnapshot>) {
    |restaurants| == |documents| &&
    forall i :: 0 <= i < |documents| ==> decode(documents[i].data) == Some(restaurants[i])
  }

  /** `snapshot.documents.map { Restaurant(dictionary: $0.data())! }`. */
  function DecodeAll(decode: Data -> Option<Restaurant>, documents: seq<DocumentSnapshot>): (r: seq<Restaurant>)
    requires AllDecode(decode, documents)
    ensures Aligned(decode, r, documents)
  {
    if documents == [] then []
    else [decode(documents[0].data).value] + DecodeAll(decode, documents[1..])
  }

  /** The documents determine the restaurants they are aligned with. */
  lemma AlignedIsDecodeAll(decode: Data -> Option<Restaurant>, restaurants: seq<Restaurant>, documents: seq<DocumentSnapshot>)
    requires Aligned(decode, restaurants, documents)
    ensures AllDecode(decode, documents)
    ensures restaurants == DecodeAll(decode, documents)
  {
  }

  /** Registrations not owned by the controller are left as they were. */
  ghost predicate OthersUnchanged(before: map<ListenerId, Registration>, after: map<ListenerId, Registration>,
                                  owned: set<ListenerId>) {
    forall id :: id in before && id !in owned ==> id in after && after[id] == before[id]
  }

  class RestaurantsTableViewController {
    const db: Firestore
    /** `Restaurant(dictionary:)`, defined outside this model. */
    const decode: Data -> Option<Restaurant>

    var restaurants: seq<Restaurant>
    var documents: seq<DocumentSnapshot>
    var query: Option<Query>
    var listener: Option<ListenerId>

    /** The registrations this controller has made. */
    ghost var Owned: set<ListenerId>

    /** The controller's registrations that can still deliver snapshots. */
    ghost function LiveOwned(): set<ListenerId>
      reads this, db
    {
      LiveIds(db.registrations) * Owned
    }

    ghost predicate Valid()
      reads this, db
    {
      && db.Valid()
      && Owned <= db.registrations.Keys
      && (listener.Some? ==> listener.value in Owned)
      && LiveOwned() <= (if listener.Some? then {listener.value} else {})
      && (listener.Some? && listener.value in LiveOwned() ==>
            query.Some? && db.registrations[listener.value].query == query.value)
      && Aligned(decode, restaurants, documents)
    }

    /** Exactly one live registration of this controller, and it is on `q`. */
    ghost predicate ListeningTo(q: Query)
      reads this, db
    {
      listener.Some? && listener.value in db.registrations &&
      LiveOwned() == {listener.value} && db.registrations[listener.value].query == q
    }

    constructor (db: Firestore, decode: Data -> Option<Restaurant>)
      requires db.Valid()
      ensures Valid()
      ensures this.db == db && this.decode == decode
      ensures restaurants == [] && documents == [] && query == None && listener == None && Owned == {}
    {
      this.db := db;
      this.decode := decode;
      restaurants := [];
      documents := [];
      query := None;
      listener := None;
      Owned := {};
    }

    /** Whatever state the controller is in, at most one of its registrations is live, and it is on the current query. */
    lemma AtMostOneLiveListener()
      requires Valid()
      ensures |LiveOwned()| <= 1
      ensures forall id :: id in LiveOwned() ==> listener == Some(id) && query.Some? && db.registrations[id].query == query.value
    {
      if listener.Some? && listener.value in LiveOwned() {
        assert LiveOwned() == {listener.value};
      } else {
        assert LiveOwned() == {};
      }
    }

    /**
      `observeQuery()`: without a query nothing happens; otherwise the old
      registration is removed and a fresh one is made on the current query.
    */
    method ObserveQuery()
      requires Valid()
      modifies this, db
      ensures Valid()
      ensures query == old(query) && restaurants == old(restaurants) && documents == old(documents)
      ensures old(query).None? ==> listener == old(listener) && db.registrations == old(db.registrations) && Owned == old(Owned)
      ensures old(query).Some? ==> ListeningTo(query.value) && listener.value !in old(db.registrations)
      ensures Owned >= old(Owned) && Owned - old(Owned) !! old(db.registrations).Keys
      ensures db.registrations.Keys - old(db.registrations).Keys <= Owned
      ensures OthersUnchanged(old(db.registrations), db.registrations, old(Owned))
      ensures db.deleted == old(db.deleted)
    {
      if query.None? {
        return;
      }
      var q := query.value;
      StopObserving();
      var id := db.AddSnapshotListener(q);
      listener := Some(id);
      Owned := Owned + {id};
    }

    /**
      `stopObserving()`: removes the registration but keeps `listener` set,
      so a later assignment to `query` subscribes again.
    */
    method StopObserving()
      requires Valid()
      modifies db
      ensures Valid() && LiveOwned() == {}
      ensures listener == old(listener)
      ensures listener.Some? ==> db.registrations == WithRemoved(old(db.registrations), listener.value)
      ensures listener.None? ==> db.registrations == old(db.registrations)
      ensures db.deleted == old(db.deleted)
    {
      if listener.Some? {
        db.Remove(listener.value);
      }
    }

    /**
      Assignment to `query` with its `didSet` observer: when a listener has
      ever been set, it is removed and the new query is observed.
    */
    method SetQuery(q: Query)
      requires Valid()
      modifies this, db
      ensures Valid() && query == Some(q)
      ensures restaurants == old(restaurants) && documents == old(documents)
      ensures old(listener).Some? ==> ListeningTo(q) && listener.value !in old(db.registrations)
      ensures old(listener).None? ==> listener == None && db.registrations == old(db.registrations) && LiveOwned() == {}
      ensures Owned >= old(Owned) && Owned - old(Owned) !! old(db.registrations).Keys
      ensures db.registrations.Keys - old(db.registrations).Keys <= Owned
      ensures OthersUnchanged(old(db.registrations), db.registrations, old(Owned))
      ensures db.deleted == old(db.deleted)
    {
      query := Some(q);
      if listener.Some? {
        db.Remove(listener.value);
        ObserveQuery();
      }
    }

    /** `viewDidLoad()`: sets the base query; nothing is observed yet on a fresh controller. */
    method ViewDidLoad()
      requires Valid()
      modifies this, db
      ensures Valid() && query == Some(BaseQuery())
      ensures old(listener).None? ==> listener == None && db.registrations == old(db.registrations)
      ensures old(listener).Some? ==> ListeningTo(BaseQuery()) && listener.value !in old(db.registrations)
      ensures restaurants == old(restaurants) && documents == old(documents)
      ensures Owned >= old(Owned) && Owned - old(Owned) !! old(db.registrations).Keys
      ensures db.registrations.Keys - old(db.registrations).Keys <= Owned
      ensures OthersUnchanged(old(db.registrations), db.registrations, old(Owned))
      ensures db.deleted == old(db.deleted)
    {
      SetQuery(BaseQuery());
    }

    /** `viewWillAppear(_:)`: observes the current query. */
    method ViewWillAppear()
      requires Valid()
      modifies this, db
      ensures Valid() && query == old(query)
      ensures query.None? ==> listener == old(listener) && db.registrations == old(db.registrations) && Owned == old(Owned)
      ensures query.Some? ==> ListeningTo(query.value) && listener.value !in old(db.registrations)
      ensures restaurants == old(restaurants) && documents == old(documents)
      ensures Owned >= old(Owned) && Owned - old(Owned) !! old(db.registrations).Keys
      ensures db.registrations.Keys - old(db.registrations).Keys <= Owned
      ensures OthersUnchanged(old(db.registrations), db.registrations, old(Owned))
      ensures db.deleted == old(db.deleted)
    {
      ObserveQuery();
    }

    /** `viewWillDisappear(_:)`: stops observing. */
    method ViewWillDisappear()
      requires Valid()
      modifies db
      ensures Valid() && LiveOwned() == {} && listener == old(listener)
      ensures listener.Some? ==> db.registrations == WithRemoved(old(db.registrations), listener.value)
      ensures listener.None? ==> db.registrations == old(db.registrations)
      ensures db.deleted == old(db.deleted)
    {
      StopObserving();
    }

    /**
      `controller(_:didSelectCategory:city:price:sortBy:)`: builds the query
      from the chosen filters alone, installs it and observes it.
    */
    method DidSelectFilters(category: Option<string>, city: Option<string>, price: Option<int>, sortBy: Option<string>)
      requires Valid()
      modifies this, db
      ensures Valid()
      ensures query == Some(FilteredQuery(category, city, price, sortBy))
      ensures ListeningTo(query.value) && listener.value !in old(db.registrations)
      ensures restaurants == old(restaurants) && documents == old(documents)
      ensures Owned >= old(Owned) && Owned - old(Owned) !! old(db.registrations).Keys
      ensures db.registrations.Keys - old(db.registrations).Keys <= Owned
      ensures OthersUnchanged(old(db.registrations), db.registrations, old(Owned))
      ensures db.deleted == old(db.deleted)
    {
      var filtered := FilteredQuery(category, city, price, sortBy);
      SetQuery(filtered);
      ObserveQuery();
    }

    /** `didTapClearButton(_:)`: applying no filters brings back the base query. */
    method DidTapClearButton()
      requires Valid()
      modifies this, db
      ensures Valid()
      ensures query == Some(BaseQuery()) && ListeningTo(BaseQuery()) && listener.value !in old(db.registrations)
      ensures restaurants == old(restaurants) && documents == old(documents)
      ensures Owned >= old(Owned) && Owned - old(Owned) !! old(db.registrations).Keys
      ensures db.registrations.Keys - old(db.registrations).Keys <= Owned
      ensures OthersUnchanged(old(db.registrations), db.registrations, old(Owned))
      ensures db.deleted == old(db.deleted)
    {
      DidSelectFilters(None, None, None, None);
      ClearedFiltersGiveBaseQuery();
    }

    /**
      The body of the snapshot listener: without a snapshot the rows stay as
      they are; otherwise restaurants and documents are replaced together.
      A document that does not convert stops the program, so every one must.
    */
    method OnSnapshot(snapshot: Option<QuerySnapshot>)
      requires Valid()
      requires snapshot.Some? ==> AllDecode(decode, snapshot.value.documents)
      modifies this`restaurants, this`documents
      ensures Valid()
      ensures snapshot.None? ==> restaurants == old(restaurants) && documents == old(documents)
      ensures snapshot.Some? ==> documents == snapshot.value.documents
      ensures snapshot.Some? ==> restaurants == DecodeAll(decode, snapshot.value.documents)
    {
      if snapshot.None? {
        return;
      }
      var models := DecodeAll(decode, snapshot.value.documents);
      restaurants := models;
      documents := snapshot.value.documents;
    }

    /** `tableView(_:numberOfRowsInSection:)`: one row per document of the latest snapshot. */
    function NumberOfRows(): (n: nat)
      reads this, db
      requires Valid()
      ensures n == |documents|
    {
      |restaurants|
    }

    /** `tableView(_:didSelectRowAt:)`: the restaurant and the document reference of the same row. */
    method DidSelectRow(row: int) returns (restaurant: Restaurant, reference: DocumentReference)
      requires Valid()
      requires 0 <= row < |restaurants|
      ensures restaurant == restaurants[row]
      ensures reference == documents[row].reference
      ensures decode(documents[row].data) == Some(restaurant)
    {
      restaurant := restaurants[row];
      reference := documents[row].reference;
    }

    /**
      `tableView(_:commit:forRowAt:)`: a delete asks Firestore to delete the
      row's document; the rows only change when the next snapshot arrives.
    */
    method CommitEditing(style: EditingStyle, row: int)
      requires Valid()
      requires style == Delete ==> 0 <= row < |documents|
      modifies db
      ensures Valid()
      ensures db.deleted == if style == Delete then old(db.deleted) + [documents[row].reference] else old(db.deleted)
      ensures db.registrations == old(db.registrations)
      ensures restaurants == old(restaurants) && documents == old(documents)
    {
      if style == Delete {
        var reference := documents[row].reference;
        db.Delete(reference);
      }
    }
  }

  /**
    A controller that loaded, appeared and disappeared still has `listener`
    set, so assigning a query makes it listen again while off screen.
  */
  method ListensAgainAfterDisappearing(db: Firestore, decode: Data -> Option<Restaurant>)
    requires db.Valid()
    modifies db
  {
    var c := new RestaurantsTableViewController(db, decode);
    c.ViewDidLoad();
    assert c.LiveOwned() == {};
    c.ViewWillAppear();
    assert c.ListeningTo(BaseQuery());
    c.ViewWillDisappear();
    assert c.LiveOwned() == {} && c.listener.Some?;
    c.SetQuery(FilteredQuery(Some("Pizza"), None, None, None));
    assert c.ListeningTo(FilteredQuery(Some("Pizza"), None, None, None));
  }
}
