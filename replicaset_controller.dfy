/**
 * The ReplicaSet pod-count labeller: a controller-runtime reconciler that reads
 * a ReplicaSet, counts the pods its template labels select in the request's
 * namespace, records that count in the ReplicaSet's "pod-count" label, updates
 * the ReplicaSet, and deletes it when it carries the label delete=true.
 *
 * As for the RGB controller, the API server is a `World` value whose calls are
 * logged and may fail (the call issued when the log holds `n` entries fails with
 * `faults[n]`), `Cluster` is the mutable client object, `Pass` the
 * specification of one reconcile pass, and `ReplicaSetReconciler.Reconcile`
 * the imperative pass proved equal to it.
 */
module ReplicaSetController {
  import opened Common
  import opened RGBObjects

  datatype Key = Key(namespace: string, name: string)

  datatype Error = NotFound | Failure(reason: string)

  /** A ReplicaSet as the reconciler reads it: its identity, its own label map
      (which may be nil) and the labels of its pod template. */
  datatype ReplicaSet = ReplicaSet(namespace: string, name: string, labels: Option<Labels>, templateLabels: Labels)

  datatype Call =
    | GetCall(key: Key)
    | ListCall(namespace: string, selector: Labels)
    | UpdateCall(rs: ReplicaSet)
    | DeleteCall(key: Key)

  datatype World = World(
    replicaSets: map<Key, ReplicaSet>,
    pods: seq<ObjectMeta>,
    log: seq<Call>,
    faults: map<nat, Error>)

  datatype Reply<T> = Reply(world: World, result: Result<T, Error>)

  function KeyOf(rs: ReplicaSet): Key {
    Key(rs.namespace, rs.name)
  }

  function Fault(w: World): Option<Error> {
    if |w.log| in w.faults then Some(w.faults[|w.log|]) else None
  }

  function GetStep(w: World, key: Key): (r: Reply<ReplicaSet>)
    ensures r.world == w.(log := w.log + [GetCall(key)])
    ensures r.result.Ok? <==> Fault(w).None? && key in w.replicaSets
    ensures r.result.Ok? ==> r.result.value == w.replicaSets[key]
    ensures r.result.Err? ==> r.result.error == if Fault(w).Some? then Fault(w).value else NotFound
  {
    var w' := w.(log := w.log + [GetCall(key)]);
    if Fault(w).Some? then Reply(w', Err(Fault(w).value))
    else if key in w.replicaSets then Reply(w', Ok(w.replicaSets[key]))
    else Reply(w', Err(NotFound))
  }

  /** The pods of one namespace whose labels the selector matches, in store order. */
  function SelectPods(pods: seq<ObjectMeta>, namespace: string, selector: Labels): (r: seq<ObjectMeta>)
    ensures |r| <= |pods|
    ensures forall p :: p in r ==> p in pods && p.namespace == namespace && Matches(selector, p.labels)
    ensures forall p :: p in pods && p.namespace == namespace && Matches(selector, p.labels) ==> p in r
  {
    if |pods| == 0 then []
    else
      var rest := SelectPods(pods[1..], namespace, selector);
      if pods[0].namespace == namespace && Matches(selector, pods[0].labels) then [pods[0]] + rest else rest
  }

  function ListStep(w: World, namespace: string, selector: Labels): (r: Reply<seq<ObjectMeta>>)
    ensures r.world == w.(log := w.log + [ListCall(namespace, selector)])
    ensures r.result.Ok? <==> Fault(w).None?
    ensures r.result.Ok? ==> r.result.value == SelectPods(w.pods, namespace, selector)
    ensures r.result.Err? ==> r.result.error == Fault(w).value
  {
    var w' := w.(log := w.log + [ListCall(namespace, selector)]);
    if Fault(w).Some? then Reply(w', Err(Fault(w).value))
    else Reply(w', Ok(SelectPods(w.pods, namespace, selector)))
  }

  /** Update replaces the stored ReplicaSet of the same identity. */
  function UpdateStep(w: World, rs: ReplicaSet): (r: Reply<()>)
    ensures r.world.log == w.log + [UpdateCall(rs)]
    ensures r.world.pods == w.pods && r.world.faults == w.faults
    ensures r.result.Ok? <==> Fault(w).None? && KeyOf(rs) in w.replicaSets
    ensures r.world.replicaSets == if r.result.Ok? then w.replicaSets[KeyOf(rs) := rs] else w.replicaSets
  {
    var w' := w.(log := w.log + [UpdateCall(rs)]);
    if Fault(w).Some? then Reply(w', Err(Fault(w).value))
    else if KeyOf(rs) !in w.replicaSets then Reply(w', Err(NotFound))
    else Reply(w'.(replicaSets := w.replicaSets[KeyOf(rs) := rs]), Ok(()))
  }

  function DeleteStep(w: World, key: Key): (r: Reply<()>)
    ensures r.world.log == w.log + [DeleteCall(key)]
    ensures r.world.pods == w.pods && r.world.faults == w.faults
    ensures r.result.Ok? <==> Fault(w).None? && key in w.replicaSets
    ensures r.world.replicaSets == if r.result.Ok? then w.replicaSets - {key} else w.replicaSets
  {
    var w' := w.(log := w.log + [DeleteCall(key)]);
    if Fault(w).Some? then Reply(w', Err(Fault(w).value))
    else if key !in w.replicaSets then Reply(w', Err(NotFound))
    else Reply(w'.(replicaSets := w.replicaSets - {key}), Ok(()))
  }

  /** The client object over the world. */
  class Cluster {
    var replicaSets: map<Key, ReplicaSet>
    var pods: seq<ObjectMeta>
    var log: seq<Call>
    const faults: map<nat, Error>

    function State(): World
      reads this
    {
      World(replicaSets, pods, log, faults)
    }

    constructor (w: World)
      ensures State() == w
    {
      replicaSets, pods, log, faults := w.replicaSets, w.pods, w.log, w.faults;
    }

    method Get(key: Key) returns (r: Result<ReplicaSet, Error>)
      modifies this
      ensures State() == GetStep(old(State()), key).world
      ensures r == GetStep(old(State()), key).result
    {
      var reply := GetStep(State(), key);
      log := reply.world.log;
      r := reply.result;
    }

    method List(namespace: string, selector: Labels) returns (r: Result<seq<ObjectMeta>, Error>)
      modifies this
      ensures State() == ListStep(old(State()), namespace, selector).world
      ensures r == ListStep(old(State()), namespace, selector).result
    {
      var reply := ListStep(State(), namespace, selector);
      log := reply.world.log;
      r := reply.result;
    }

    method Update(rs: ReplicaSet) returns (r: Result<(), Error>)
      modifies this
      ensures State() == UpdateStep(old(State()), rs).world
      ensures r == UpdateStep(old(State()), rs).result
    {
      var reply := UpdateStep(State(), rs);
      replicaSets, log := reply.world.replicaSets, reply.world.log;
      r := reply.result;
    }

    method Delete(key: Key) returns (r: Result<(), Error>)
      modifies this
      ensures State() == DeleteStep(old(State()), key).world
      ensures r == DeleteStep(old(State()), key).result
    {
      var reply := DeleteStep(State(), key);
      replicaSets, log := reply.world.replicaSets, reply.world.log;
      r := reply.result;
    }
  }

  const PodCountKey: string := "pod-count"
  const DeleteKey: string := "delete"

  /** The label map after the pod-count step: a nil map is first replaced by an
      empty one, then "pod-count" is set to the decimal text of `n`. */
  function WithPodCount(labels: Option<Labels>, n: nat): (r: Labels)
    ensures PodCountKey in r && ParseDecimal(r[PodCountKey]) == Some(n)
    ensures forall k :: k != PodCountKey ==> (k in r <==> labels.Some? && k in labels.value)
    ensures forall k :: k != PodCountKey && k in r ==> r[k] == labels.value[k]
  {
    DecimalRoundTrip(n);
    var base := if labels.None? then map[] else labels.value;
    base[PodCountKey := Decimal(n)]
  }

  /** Whether the label map carries delete=true. */
  predicate MarkedForDeletion(labels: Labels) {
    DeleteKey in labels && labels[DeleteKey] == "true"
  }

  /** The error a pass returns (None for `ctrl.Result{}, nil`) and the world after it. */
  datatype PassResult = PassResult(error: Option<Error>, world: World)

  /** One reconcile pass for the ReplicaSet filed under `req`. */
  function Pass(w: World, req: Key): PassResult {
    var got := GetStep(w, req);
    if got.result.Err? then PassResult(Some(got.result.error), got.world)
    else
      var rs := got.result.value;
      var listed := ListStep(got.world, req.namespace, rs.templateLabels);
      if listed.result.Err? then PassResult(Some(listed.result.error), listed.world)
      else
        var labelled := rs.(labels := Some(WithPodCount(rs.labels, |listed.result.value|)));
        var updated := UpdateStep(listed.world, labelled);
        if updated.result.Err? then PassResult(Some(updated.result.error), updated.world)
        else if MarkedForDeletion(labelled.labels.value) then
          var deleted := DeleteStep(updated.world, KeyOf(labelled));
          PassResult(if deleted.result.Err? then Some(deleted.result.error) else None, deleted.world)
        else PassResult(None, updated.world)
  }

  class ReplicaSetReconciler {
    const client: Cluster

    constructor (client: Cluster)
      ensures this.client == client
    {
      this.client := client;
    }

    method Reconcile(req: Key) returns (err: Option<Error>)
      modifies client
      ensures err == Pass(old(client.State()), req).error
      ensures client.State() == Pass(old(client.State()), req).world
    {
      var got := client.Get(req);
      if got.Err? {
        return Some(got.error);
      }
      var rs := got.value;
      var pods := client.List(req.namespace, rs.templateLabels);
      if pods.Err? {
        return Some(pods.error);
      }
      if rs.labels.None? {
        rs := rs.(labels := Some(map[]));
      }
      rs := rs.(labels := Some(rs.labels.value[PodCountKey := Decimal(|pods.value|)]));
      var updated := client.Update(rs);
      if updated.Err? {
        return Some(updated.error);
      }
      if DeleteKey in rs.labels.value && rs.labels.value[DeleteKey] == "true" {
        var deleted := client.Delete(KeyOf(rs));
        if deleted.Err? {
          return Some(deleted.error);
        }
      }
      return None;
    }
  }

  // ---------------------------------------------------------------------------
  // Properties of a pass
  // ---------------------------------------------------------------------------

  /** A world whose ReplicaSets carry the identity they are filed under. */
  ghost predicate WellKeyed(w: World) {
    forall k :: k in w.replicaSets ==> KeyOf(w.replicaSets[k]) == k
  }

  /** The pods a pass counts for the ReplicaSet under `req`. */
  function Counted(w: World, req: Key): nat
    requires req in w.replicaSets
  {
    |SelectPods(w.pods, req.namespace, w.replicaSets[req].templateLabels)|
  }

  /** Any Get error, NotFound included, is returned, and nothing else is issued. */
  lemma GetErrorReturned(w: World, req: Key)
    requires Fault(w).Some? || req !in w.replicaSets
    ensures var r := Pass(w, req);
      && r.error == Some(if Fault(w).Some? then Fault(w).value else NotFound)
      && r.world == w.(log := w.log + [GetCall(req)])
  {
  }

  /** Pods are listed in the request's namespace by the template labels; a
      List error is returned before any Update. */
  lemma ListErrorBeforeUpdate(w: World, req: Key)
    requires Fault(w).None? && req in w.replicaSets
    requires |w.log| + 1 in w.faults
    ensures var r := Pass(w, req);
      && r.error == Some(w.faults[|w.log| + 1])
      && r.world == w.(log := w.log + [GetCall(req), ListCall(req.namespace, w.replicaSets[req].templateLabels)])
  {
  }

  /** The object a pass sends to Update: the fetched ReplicaSet whose
      "pod-count" label holds the number of selected pods, every other label
      as it was (a nil map read as empty), and nothing else changed. */
  lemma UpdateSendsPodCount(w: World, req: Key)
    requires Fault(w).None? && req in w.replicaSets
    requires |w.log| + 1 !in w.faults
    ensures var rs := w.replicaSets[req];
      var r := Pass(w, req);
      && |r.world.log| >= |w.log| + 3
      && r.world.log[..|w.log| + 2] == w.log + [GetCall(req), ListCall(req.namespace, rs.templateLabels)]
      && r.world.log[|w.log| + 2].UpdateCall?
      && var sent := r.world.log[|w.log| + 2].rs;
         && sent == rs.(labels := Some(WithPodCount(rs.labels, Counted(w, req))))
         && ParseDecimal(sent.labels.value[PodCountKey]) == Some(Counted(w, req))
  {
    var rs := w.replicaSets[req];
    var labelled := rs.(labels := Some(WithPodCount(rs.labels, Counted(w, req))));
    var r := Pass(w, req);
    var prefix := w.log + [GetCall(req), ListCall(req.namespace, rs.templateLabels)];
    assert r.world.log[..|prefix| + 1] == prefix + [UpdateCall(labelled)];
  }

  /** An Update failure is returned and no Delete is issued. */
  lemma UpdateFailureSkipsDelete(w: World, req: Key)
    requires Fault(w).None? && req in w.replicaSets
    requires |w.log| + 1 !in w.faults && |w.log| + 2 in w.faults
    ensures var r := Pass(w, req);
      && r.error == Some(w.faults[|w.log| + 2])
      && r.world.replicaSets == w.replicaSets
      && |r.world.log| == |w.log| + 3
      && !r.world.log[|w.log| + 2].DeleteCall?
  {
  }

  /** Once the Update succeeds, a Delete of the ReplicaSet is issued iff its
      labels say delete=true; the pod-count label never changes that answer. */
  lemma DeleteIffMarked(w: World, req: Key)
    requires WellKeyed(w)
    requires Fault(w).None? && req in w.replicaSets
    requires |w.log| + 1 !in w.faults && |w.log| + 2 !in w.faults
    ensures var rs := w.replicaSets[req];
      var r := Pass(w, req);
      var marked := rs.labels.Some? && MarkedForDeletion(rs.labels.value);
      var labelled := rs.(labels := Some(WithPodCount(rs.labels, Counted(w, req))));
      && |r.world.log| == |w.log| + (if marked then 4 else 3)
      && (marked ==> r.world.log[|w.log| + 3] == DeleteCall(req))
      && (marked ==> r.error == (if |w.log| + 3 in w.faults then Some(w.faults[|w.log| + 3]) else None))
      && (marked ==> r.world.replicaSets == if |w.log| + 3 in w.faults
                                           then w.replicaSets[req := labelled]
                                           else w.replicaSets - {req})
      && (!marked ==> r.error == None && r.world.replicaSets == w.replicaSets[req := labelled])
  {
    var rs := w.replicaSets[req];
    var labels := WithPodCount(rs.labels, Counted(w, req));
    assert MarkedForDeletion(labels) <==> rs.labels.Some? && MarkedForDeletion(rs.labels.value) by {
      assert DeleteKey != PodCountKey;
    }
  }

  /** A pass that returns no error left every call it issued succeed, and the
      ReplicaSet is then either deleted or stored with the current pod count. */
  lemma SuccessfulPassOutcome(w: World, req: Key)
    requires WellKeyed(w)
    requires Pass(w, req).error.None?
    ensures req in w.replicaSets
    ensures var rs := w.replicaSets[req];
      var after := Pass(w, req).world.replicaSets;
      if rs.labels.Some? && MarkedForDeletion(rs.labels.value) then after == w.replicaSets - {req}
      else && req in after
           && after[req].labels.Some?
           && ParseDecimal(after[req].labels.value[PodCountKey]) == Some(Counted(w, req))
  {
    if Fault(w).None? && req in w.replicaSets && |w.log| + 1 !in w.faults && |w.log| + 2 !in w.faults {
      DeleteIffMarked(w, req);
    }
  }
}
