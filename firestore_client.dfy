/**
  An abstract model of the part of the Firestore client SDK that the restaurant
  list talks to: declarative queries (built by chaining `collection`, `limit`,
  `whereField` and `order`), document and query snapshots, snapshot-listener
  registrations that can be removed, and delete requests on document references.
  Query execution, transport and completion callbacks belong to the SDK and are
  not modelled.
*/
module FirestoreClient {
  import opened Wrappers

  /** A field value stored in a document or compared against in a predicate. */
  datatype Value = StringValue(s: string) | IntValue(i: int)

  /** The key-value payload of a document, `document.data()`. */
  type Data = map<string, Value>

  /** Opaque handle on one remote document; used only to issue mutations on it. */
  datatype DocumentReference = DocumentReference(path: string)

  datatype DocumentSnapshot = DocumentSnapshot(reference: DocumentReference, data: Data)

  /** One push of a snapshot listener: the full, ordered result of the query. */
  datatype QuerySnapshot = QuerySnapshot(documents: seq<DocumentSnapshot>)

  /** An equality predicate `whereField(field, isEqualTo: value)`. */
  datatype Predicate = IsEqualTo(field: string, value: Value)

  /** An immutable query description: every refinement returns a new value. */
  datatype Query = Query(collection: string, limit: Option<nat>, predicates: seq<Predicate>, orderBy: seq<string>)

  function Collection(path: string): Query {
    Query(path, None, [], [])
  }

  function LimitTo(q: Query, n: nat): Query {
    q.(limit := Some(n))
  }

  function WhereField(q: Query, field: string, v: Value): Query {
    q.(predicates := q.predicates + [IsEqualTo(field, v)])
  }

  function OrderBy(q: Query, field: string): Query {
    q.(orderBy := q.orderBy + [field])
  }

  /** A snapshot-listener registration, identified by the id the SDK hands out. */
  type ListenerId = nat

  datatype Registration = Registration(query: Query, removed: bool)

  /** The registrations that can still deliver snapshots. */
  function LiveIds(regs: map<ListenerId, Registration>): set<ListenerId> {
    set id | id in regs && !regs[id].removed
  }

  /** The registration table after `addSnapshotListener` on `q` allocated `id`. */
  function WithListener(regs: map<ListenerId, Registration>, id: ListenerId, q: Query): (r: map<ListenerId, Registration>)
    requires id !in regs
    ensures r.Keys == regs.Keys + {id}
    ensures LiveIds(r) == LiveIds(regs) + {id}
    ensures r[id].query == q
    ensures forall k :: k in regs ==> r[k] == regs[k]
  {
    regs[id := Registration(q, false)]
  }

  /** The registration table after `remove()` on registration `id`. */
  function WithRemoved(regs: map<ListenerId, Registration>, id: ListenerId): (r: map<ListenerId, Registration>)
    requires id in regs
    ensures r.Keys == regs.Keys
    ensures LiveIds(r) == LiveIds(regs) - {id}
    ensures r[id].query == regs[id].query
    ensures forall k :: k in regs && k != id ==> r[k] == regs[k]
  {
    regs[id := regs[id].(removed := true)]
  }

  /** `ListenerRegistration.remove()` is idempotent. */
  lemma RemoveIsIdempotent(regs: map<ListenerId, Registration>, id: ListenerId)
    requires id in regs
    ensures WithRemoved(WithRemoved(regs, id), id) == WithRemoved(regs, id)
  {
  }

  /**
    The shared Firestore instance as the controller sees it: a table of
    listener registrations and the delete requests issued so far.
  */
  class Firestore {
    var registrations: map<ListenerId, Registration>
    var nextId: ListenerId
    var deleted: seq<DocumentReference>

    ghost predicate Valid()
      reads this
    {
      forall id :: id in registrations ==> id < nextId
    }

    constructor ()
      ensures Valid()
      ensures registrations == map[] && deleted == []
    {
      registrations := map[];
      nextId := 0;
      deleted := [];
    }

    /** `query.addSnapshotListener`: registers a fresh, live listener on `q`. */
    method AddSnapshotListener(q: Query) returns (id: ListenerId)
      requires Valid()
      modifies this
      ensures Valid()
      ensures id !in old(registrations)
      ensures registrations == WithListener(old(registrations), id, q)
      ensures deleted == old(deleted)
    {
      id := nextId;
      registrations := WithListener(registrations, id, q);
      nextId := nextId + 1;
    }

    /** `ListenerRegistration.remove()`: the registration stops delivering snapshots. */
    method Remove(id: ListenerId)
      requires Valid()
      requires id in registrations
      modifies this
      ensures Valid()
      ensures registrations == WithRemoved(old(registrations), id)
      ensures deleted == old(deleted)
    {
      registrations := WithRemoved(registrations, id);
    }

    /** `DocumentReference.delete`: records a delete request; its completion is not modelled. */
    method Delete(reference: DocumentReference)
      requires Valid()
      modifies this
      ensures Valid()
      ensures deleted == old(deleted) + [reference]
      ensures registrations == old(registrations)
    {
      deleted := deleted + [reference];
    }
  }
}
