/** The consumer manager: creating, listing and deleting OAuth consumers,
    over an abstract consumer storage keyed by UUID. */
module Consumers {

  import opened Text
  import opened Configuration

  /** A stored consumer. `userId` and `roles` are `None` when the record
      was created without them. */
  datatype Consumer = Consumer(
    uuid: String,
    title: String,
    description: String,
    isDefault: bool,
    userId: Option<String>,
    roles: Option<seq<String>>)

  /** The optional creation settings. */
  datatype Options = Options(userId: Option<String>, roles: Option<seq<String>>)

  /** The consumer storage, keyed by UUID. */
  type ConsumerStore = map<String, Consumer>

  /** PHP `!empty()` of an optional list. */
  predicate NonEmptyList<T>(o: Option<seq<T>>) {
    o.Some? && o.value != []
  }

  /** Creates a consumer with the fresh UUID `uuid`. The record carries the
      title (the label) and description, is never the default consumer, and carries the
      user reference and the roles only when they are non-empty. When the
      storage fails to save, the result is NULL and nothing is stored. */
  function CreateConsumer(store: ConsumerStore, title: String, description: String, opts: Options, uuid: String, saveFails: bool)
    : (r: (Option<Consumer>, ConsumerStore))
    requires uuid !in store
    ensures r.0.None? <==> saveFails
    ensures saveFails ==> r.1 == store
    ensures r.0.Some? ==> r.1 == store[uuid := r.0.value]
    ensures r.0.Some? ==> && r.0.value.uuid == uuid
                          && r.0.value.title == title
                          && r.0.value.description == description
                          && !r.0.value.isDefault
    ensures r.0.Some? ==> (r.0.value.userId.Some? <==> Truthy(opts.userId))
    ensures r.0.Some? && Truthy(opts.userId) ==> r.0.value.userId == opts.userId
    ensures r.0.Some? ==> (r.0.value.roles.Some? <==> NonEmptyList(opts.roles))
    ensures r.0.Some? && NonEmptyList(opts.roles) ==> r.0.value.roles == opts.roles
  {
    if saveFails then (None, store)
    else
      var c := Consumer(uuid, title, description, false,
                        if Truthy(opts.userId) then opts.userId else None,
                        if NonEmptyList(opts.roles) then opts.roles else None);
      (Some(c), store[uuid := c])
  }

  /** The consumers stored under `ids`, in the order of `ids`; IDs without a
      stored consumer are skipped. */
  function LoadMultiple(store: ConsumerStore, ids: seq<String>): (r: seq<Consumer>)
    ensures |r| <= |ids|
    ensures forall i :: 0 <= i < |r| ==> r[i] in store.Values
    ensures (forall i :: 0 <= i < |ids| ==> ids[i] in store) ==> |r| == |ids|
    ensures (forall i :: 0 <= i < |ids| ==> ids[i] in store) ==> forall i :: 0 <= i < |ids| ==> r[i] == store[ids[i]]
    decreases |ids|
  {
    if ids == [] then []
    else
      var rest := LoadMultiple(store, ids[1..]);
      if ids[0] in store then
        assert forall i :: 1 <= i < |ids| ==> ids[1..][i - 1] == ids[i];
        [store[ids[0]]] + rest
      else rest
  }

  /** Lists the consumers. `query` is the result of the sorted entity query:
      `None` when the storage throws. No IDs, or a failing storage, yield
      the empty list. */
  function GetConsumers(store: ConsumerStore, query: Option<seq<String>>): (r: seq<Consumer>)
    ensures query.None? ==> r == []
    ensures query.Some? && query.value == [] ==> r == []
    ensures query.Some? ==> |r| <= |query.value|
    ensures forall i :: 0 <= i < |r| ==> r[i] in store.Values
    ensures query.Some? && (forall i :: 0 <= i < |query.value| ==> query.value[i] in store)
            ==> |r| == |query.value| && forall i :: 0 <= i < |r| ==> r[i] == store[query.value[i]]
  {
    if query.None? || query.value == [] then [] else LoadMultiple(store, query.value)
  }

  /** Whether `ids` is what the label-sorted query returns: each stored
      consumer's ID once and no other, ordered by label under the
      database's collation `le`. */
  predicate LabelQuery(store: ConsumerStore, ids: seq<String>, le: (String, String) -> bool) {
    && Distinct(ids)
    && (forall i :: 0 <= i < |ids| ==> ids[i] in store)
    && (forall id :: id in store ==> id in ids)
    && forall i, j :: 0 <= i < j < |ids| ==> le(store[ids[i]].title, store[ids[j]].title)
  }

  /** Given the query's IDs, the listing holds every stored consumer and
      only those, one per ID, ordered by label. */
  lemma ListsEveryConsumerByLabel(store: ConsumerStore, ids: seq<String>, le: (String, String) -> bool)
    requires LabelQuery(store, ids, le)
    ensures var r := GetConsumers(store, Some(ids));
            && |r| == |ids|
            && (forall c :: c in r <==> c in store.Values)
            && forall i, j :: 0 <= i < j < |r| ==> le(r[i].title, r[j].title)
  {
    var r := GetConsumers(store, Some(ids));
    forall c | c in store.Values ensures c in r {
      var id :| id in store && store[id] == c;
      var i :| 0 <= i < |ids| && ids[i] == id;
      assert r[i] == c;
    }
  }

  /** Deletes the consumer with UUID `uuid` and unlinks it from the
      framework list. FALSE, with nothing changed, when the storage fails or
      no such consumer exists; otherwise the consumer is gone, the
      frameworks are as `RemoveFramework` leaves them, and the result is
      TRUE whether or not a framework was linked. */
  function DeleteConsumer(store: ConsumerStore, s: Settings, uuid: String, storageFails: bool)
    : (r: (bool, ConsumerStore, Settings))
    requires !s.frontendFrameworks.Scalar?
    ensures r.0 <==> !storageFails && uuid in store
    ensures !r.0 ==> r.1 == store && r.2 == s
    ensures r.0 ==> r.1 == store - {uuid} && r.2 == RemoveFramework(s, uuid).1
  {
    if storageFails || uuid !in store then (false, store, s)
    else (true, store - {uuid}, RemoveFramework(s, uuid).1)
  }

  /** After a successful deletion no framework is linked to the consumer,
      and every framework not linked to it is kept, in order. */
  lemma DeleteConsumerUnlinksFrameworks(store: ConsumerStore, s: Settings, uuid: String)
    requires !s.frontendFrameworks.Scalar? && uuid in store
    ensures var r := DeleteConsumer(store, s, uuid, false);
            && r.0
            && !LinkedTo(GetFrameworks(r.2), uuid)
            && GetFrameworks(r.2) == Filter(GetFrameworks(s), NotOwnedBy(uuid))
  {
    var fs := GetFrameworks(s);
    assert fs == fs + [];
    RemoveFrameworkKeepsOthers(s, uuid, fs, []);
    assert Filter(fs, NotOwnedBy(uuid)) + Filter([], NotOwnedBy(uuid)) == Filter(fs, NotOwnedBy(uuid));
  }

  /** Deleting a consumer just created restores the consumer storage. */
  lemma DeleteUndoesCreate(store: ConsumerStore, s: Settings, title: String, description: String, opts: Options, uuid: String)
    requires uuid !in store && !s.frontendFrameworks.Scalar?
    ensures var created := CreateConsumer(store, title, description, opts, uuid, false).1;
            DeleteConsumer(created, s, uuid, false).1 == store
  {
    var created := CreateConsumer(store, title, description, opts, uuid, false).1;
    assert created - {uuid} == store;
  }
}
