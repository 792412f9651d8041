/**
 * The Kubernetes API as the RGB controller sees it: Get on RGBResourceManager
 * records, List/Create/Delete on child items, and Update on a record's status
 * subresource.  Every call is recorded in a call log, and any call may fail:
 * the call issued when the log holds `n` entries fails with `faults[n]` when
 * `n` is a key of `faults`.  Each operation is a function on a `World` value;
 * the `Store` class is the mutable client object whose methods perform them.
 */
module RGBStore {
  import opened Common
  import opened RGBTypes
  import opened RGBObjects

  /** A namespaced name, the identity of every object in the store. */
  datatype Key = Key(namespace: string, name: string)

  /** The errors a pass can meet or return.  `Failure` carries any other
      error text, including the controller's own "unsupported kind in rgb". */
  datatype Error = NotFound | AlreadyExists | Failure(reason: string)

  /** Every call the controller can issue, as the call log records it. */
  datatype Call =
    | GetCall(key: Key)
    | ListCall(kind: RGBSupportedKind, namespace: string, selector: Labels)
    | CreateCall(item: Item)
    | DeleteCall(item: Item)
    | StatusUpdateCall(key: Key, status: RGBResourceManagerStatus)

  datatype World = World(
    records: map<Key, RGBResourceManager>,
    items: seq<Item>,
    log: seq<Call>,
    faults: map<nat, Error>)

  /** The answer of one call: the world after it and what it returned. */
  datatype Reply<T> = Reply(world: World, result: Result<T, Error>)

  /** A world whose records carry the identity they are filed under. */
  ghost predicate WellKeyed(w: World) {
    forall k :: k in w.records ==> w.records[k].namespace == k.namespace && w.records[k].name == k.name
  }

  function KeyOf(r: RGBResourceManager): Key {
    Key(r.namespace, r.name)
  }

  /** Records `c` in the log and says whether the store injects a failure for it. */
  function Issue(w: World, c: Call): (World, Option<Error>) {
    (w.(log := w.log + [c]), if |w.log| in w.faults then Some(w.faults[|w.log|]) else None)
  }

  function GetStep(w: World, key: Key): (r: Reply<RGBResourceManager>)
    ensures r.world == w.(log := w.log + [GetCall(key)])
    ensures r.result.Ok? <==> |w.log| !in w.faults && key in w.records
    ensures r.result.Ok? ==> r.result.value == w.records[key]
    ensures r.result.Err? && |w.log| !in w.faults ==> r.result.error == NotFound
  {
    var (w', fault) := Issue(w, GetCall(key));
    if fault.Some? then Reply(w', Err(fault.value))
    else if key in w.records then Reply(w', Ok(w.records[key]))
    else Reply(w', Err(NotFound))
  }

  /** The items of one kind in one namespace that the selector matches, in store order. */
  function Select(items: seq<Item>, kind: RGBSupportedKind, namespace: string, selector: Labels): (r: seq<Item>)
    ensures |r| <= |items|
    ensures forall it :: it in r ==>
      it in items && it.Kind() == kind && it.Meta().namespace == namespace && Matches(selector, it.Meta().labels)
  {
    if |items| == 0 then []
    else
      var rest := Select(items[1..], kind, namespace, selector);
      var it := items[0];
      if it.Kind() == kind && it.Meta().namespace == namespace && Matches(selector, it.Meta().labels)
      then [it] + rest else rest
  }

  function ListStep(w: World, kind: RGBSupportedKind, namespace: string, selector: Labels): (r: Reply<seq<Item>>)
    ensures r.world == w.(log := w.log + [ListCall(kind, namespace, selector)])
    ensures r.result.Ok? <==> |w.log| !in w.faults
    ensures r.result.Ok? ==> r.result.value == Select(w.items, kind, namespace, selector)
  {
    var (w', fault) := Issue(w, ListCall(kind, namespace, selector));
    if fault.Some? then Reply(w', Err(fault.value))
    else Reply(w', Ok(Select(w.items, kind, namespace, selector)))
  }

  /** Two items denote the same object when kind, namespace and name agree. */
  predicate SameObject(a: Item, b: Item) {
    a.Kind() == b.Kind() && a.Meta().namespace == b.Meta().namespace && a.Meta().name == b.Meta().name
  }

  predicate Present(items: seq<Item>, it: Item) {
    exists k :: 0 <= k < |items| && SameObject(items[k], it)
  }

  /** Create stores a new item unless an object of that identity already exists. */
  function CreateStep(w: World, it: Item): (r: Reply<()>)
    ensures r.result.Ok? <==> |w.log| !in w.faults && !Present(w.items, it)
    ensures r.world.log == w.log + [CreateCall(it)]
    ensures r.world.records == w.records && r.world.faults == w.faults
    ensures r.world.items == if r.result.Ok? then w.items + [it] else w.items
  {
    var (w', fault) := Issue(w, CreateCall(it));
    if fault.Some? then Reply(w', Err(fault.value))
    else if Present(w.items, it) then Reply(w', Err(AlreadyExists))
    else Reply(w'.(items := w.items + [it]), Ok(()))
  }

  /** The items that remain after deleting the object `it` denotes. */
  function Without(items: seq<Item>, it: Item): (r: seq<Item>)
    ensures |r| <= |items|
    ensures forall x :: x in r ==> x in items && !SameObject(x, it)
  {
    if |items| == 0 then []
    else if SameObject(items[0], it) then Without(items[1..], it)
    else [items[0]] + Without(items[1..], it)
  }

  function DeleteStep(w: World, it: Item): (r: Reply<()>)
    ensures r.result.Ok? <==> |w.log| !in w.faults && Present(w.items, it)
    ensures r.world.log == w.log + [DeleteCall(it)]
    ensures r.world.records == w.records && r.world.faults == w.faults
    ensures r.world.items == if r.result.Ok? then Without(w.items, it) else w.items
  {
    var (w', fault) := Issue(w, DeleteCall(it));
    if fault.Some? then Reply(w', Err(fault.value))
    else if !Present(w.items, it) then Reply(w', Err(NotFound))
    else Reply(w'.(items := Without(w.items, it)), Ok(()))
  }

  /** Status().Update: replaces the stored record's status, and nothing else. */
  function UpdateStatusStep(w: World, key: Key, status: RGBResourceManagerStatus): (r: Reply<()>)
    ensures r.result.Ok? <==> |w.log| !in w.faults && key in w.records
    ensures r.world.log == w.log + [StatusUpdateCall(key, status)]
    ensures r.world.items == w.items && r.world.faults == w.faults
    ensures r.world.records == if r.result.Ok? then w.records[key := w.records[key].(status := status)]
                               else w.records
  {
    var (w', fault) := Issue(w, StatusUpdateCall(key, status));
    if fault.Some? then Reply(w', Err(fault.value))
    else if key !in w.records then Reply(w', Err(NotFound))
    else Reply(w'.(records := w.records[key := w.records[key].(status := status)]), Ok(()))
  }

  /** The client object: the store's current contents, its call log and its
      fault oracle. */
  class Store {
    var records: map<Key, RGBResourceManager>
    var items: seq<Item>
    var log: seq<Call>
    const faults: map<nat, Error>

    function State(): World
      reads this
    {
      World(records, items, log, faults)
    }

    constructor (w: World)
      ensures State() == w
    {
      records, items, log, faults := w.records, w.items, w.log, w.faults;
    }

    method Get(key: Key) returns (r: Result<RGBResourceManager, Error>)
      modifies this
      ensures State() == GetStep(old(State()), key).world
      ensures r == GetStep(old(State()), key).result
    {
      var reply := GetStep(State(), key);
      log := reply.world.log;
      r := reply.result;
    }

    method List(kind: RGBSupportedKind, namespace: string, selector: Labels) returns (r: Result<seq<Item>, Error>)
      modifies this
      ensures State() == ListStep(old(State()), kind, namespace, selector).world
      ensures r == ListStep(old(State()), kind, namespace, selector).result
    {
      var reply := ListStep(State(), kind, namespace, selector);
      log := reply.world.log;
      r := reply.result;
    }

    method Create(it: Item) returns (r: Result<(), Error>)
      modifies this
      ensures State() == CreateStep(old(State()), it).world
      ensures r == CreateStep(old(State()), it).result
    {
      var reply := CreateStep(State(), it);
      items, log := reply.world.items, reply.world.log;
      r := reply.result;
    }

    method Delete(it: Item) returns (r: Result<(), Error>)
      modifies this
      ensures State() == DeleteStep(old(State()), it).world
      ensures r == DeleteStep(old(State()), it).result
    {
      var reply := DeleteStep(State(), it);
      items, log := reply.world.items, reply.world.log;
      r := reply.result;
    }

    method UpdateStatus(key: Key, status: RGBResourceManagerStatus) returns (r: Result<(), Error>)
      modifies this
      ensures State() == UpdateStatusStep(old(State()), key, status).world
      ensures r == UpdateStatusStep(old(State()), key, status).result
    {
      var reply := UpdateStatusStep(State(), key, status);
      records, log := reply.world.records, reply.world.log;
      r := reply.result;
    }
  }
}
