/**
 * One reconcile pass of the RGBResourceManager controller.
 *
 * `Pass` states, as a function of the world before the pass, what the pass
 * returns, what the store looks like afterwards and which copy of the record
 * the reconciler holds when it returns.  `RGBResourceManagerReconciler.Reconcile`
 * is the imperative pass, proved to behave exactly as `Pass` says.  The
 * properties of `Pass` are in module RGBProperties.
 */
module RGBController {
  import opened Common
  import opened RGBTypes
  import opened RGBObjects
  import opened RGBStore

  /** What a pass hands back to controller-runtime: `ctrl.Result{}` is always
      empty, so only the error matters.  `Requeue(e)` is a non-nil error. */
  datatype Outcome = Done | Requeue(error: Error)

  /** What a pass draws on besides the store: the suffix `uuid.New()` yields on
      the i-th item of a pass, and what ctrl.SetControllerReference returns
      (the same for every item of a pass: it depends on the owner, the scheme
      and the child's namespace, and every child of a pass is built in
      namespace "default"). */
  datatype Env = Env(uuid: nat -> string, ownerRef: Option<Error>)

  /** The outcome, the world afterwards, and the reconciler's in-memory copy of
      the record when the pass returns (absent when the Get failed). */
  datatype PassResult = PassResult(outcome: Outcome, world: World, held: Option<RGBResourceManager>)

  datatype LoopResult = LoopResult(outcome: Outcome, world: World)

  /** The fixed selector every record lists its children with. */
  const AppSelector: Labels := map["app" := "rgb"]

  /** The fixed namespace every child is created in. */
  const ChildNamespace: string := "default"

  const UnsupportedKindError: Error := Failure("unsupported kind in rgb")

  /** client.IgnoreNotFound. */
  function IgnoreNotFound(e: Error): (o: Outcome)
    ensures o.Done? <==> e == NotFound
    ensures o.Requeue? ==> o.error == e
  {
    if e == NotFound then Done else Requeue(e)
  }

  /** The child built for `rec` by one iteration of a create loop: the factory
      output for the kind in namespace `ns`, named after the record, with the
      colour label set. */
  function NewChild(rec: RGBResourceManager, kind: RGBSupportedKind, ns: string, suffix: string): Item {
    var name := rec.name + "-" + suffix;
    var base := if kind == PodKind then PodItem(CreatePodObj(ns, name, "app", "rgb"))
                else DeploymentItem(CreateDeploymentObj(ns, name, 1, "app", "rgb"));
    base.WithLabel("color", rec.spec.color)
  }

  /** `for i := 0; i < n; i++ { ... create ... }` into namespace `ns`, from iteration `i` on. */
  function CreateLoop(w: World, rec: RGBResourceManager, kind: RGBSupportedKind, ns: string, env: Env, i: nat, n: int): LoopResult
    decreases n - i
  {
    if n <= i then LoopResult(Done, w)
    else if env.ownerRef.Some? then LoopResult(Requeue(env.ownerRef.value), w)
    else
      var created := CreateStep(w, NewChild(rec, kind, ns, env.uuid(i)));
      if created.result.Err? then LoopResult(Requeue(created.result.error), created.world)
      else CreateLoop(created.world, rec, kind, ns, env, i + 1, n)
  }

  /** `for i := 0; i < n; i++ { ... delete children[i] ... }`, from iteration `i` on. */
  function DeleteLoop(w: World, children: seq<Item>, i: nat, n: int): LoopResult
    requires n <= |children|
    decreases n - i
  {
    if n <= i then LoopResult(Done, w)
    else
      var deleted := DeleteStep(w, children[i]);
      if deleted.result.Err? then LoopResult(Requeue(deleted.result.error), deleted.world)
      else DeleteLoop(deleted.world, children, i + 1, n)
  }

  function WithReady(rec: RGBResourceManager): RGBResourceManager {
    rec.(status := rec.status.(result := RGBReady))
  }

  /** markRGBReady: sets Ready on the held copy and persists its status. */
  function MarkReady(w: World, rec: RGBResourceManager): PassResult {
    var marked := WithReady(rec);
    var updated := UpdateStatusStep(w, KeyOf(marked), marked.status);
    PassResult(if updated.result.Err? then Requeue(updated.result.error) else Done, updated.world, Some(marked))
  }

  /** The Pod branch, with the controller's two `count == Spec.Count` tests; the
      second one (the markRGBReady call) can never be reached. */
  function PodBranch(w: World, req: Key, rec: RGBResourceManager, env: Env): PassResult {
    var listed := ListStep(w, PodKind, req.namespace, AppSelector);
    if listed.result.Err? then PassResult(Requeue(listed.result.error), listed.world, Some(rec))
    else
      var children := listed.result.value;
      var count := |children|;
      if count == rec.spec.count then PassResult(Done, listed.world, Some(WithReady(rec)))
      else if count == rec.spec.count then MarkReady(listed.world, rec)
      else if count < rec.spec.count then
        var r := CreateLoop(listed.world, rec, PodKind, ChildNamespace, env, 0, rec.spec.count - count);
        PassResult(r.outcome, r.world, Some(rec))
      else
        var r := DeleteLoop(listed.world, children, 0, rec.spec.count - count);
        PassResult(r.outcome, r.world, Some(rec))
  }

  function DeploymentBranch(w: World, req: Key, rec: RGBResourceManager, env: Env): PassResult {
    var listed := ListStep(w, DeploymentKind, req.namespace, AppSelector);
    if listed.result.Err? then PassResult(Requeue(listed.result.error), listed.world, Some(rec))
    else
      var children := listed.result.value;
      var count := |children|;
      if count == rec.spec.count then MarkReady(listed.world, rec)
      else if count < rec.spec.count then
        var r := CreateLoop(listed.world, rec, DeploymentKind, ChildNamespace, env, 0, rec.spec.count - count);
        PassResult(r.outcome, r.world, Some(rec))
      else
        var r := DeleteLoop(listed.world, children, 0, rec.spec.count - count);
        PassResult(r.outcome, r.world, Some(rec))
  }

  /** One reconcile pass for the record filed under `req`. */
  function Pass(w: World, req: Key, env: Env): PassResult {
    var got := GetStep(w, req);
    if got.result.Err? then PassResult(IgnoreNotFound(got.result.error), got.world, None)
    else
      var rec := got.result.value;
      if rec.spec.kind == PodRc then PodBranch(got.world, req, rec, env)
      else if rec.spec.kind == DeploymentRc then DeploymentBranch(got.world, req, rec, env)
      else PassResult(Requeue(UnsupportedKindError), got.world, Some(rec))
  }

  class RGBResourceManagerReconciler {
    const client: Store

    constructor (client: Store)
      ensures this.client == client
    {
      this.client := client;
    }

    method Reconcile(req: Key, env: Env) returns (outcome: Outcome)
      modifies client
      ensures outcome == Pass(old(client.State()), req, env).outcome
      ensures client.State() == Pass(old(client.State()), req, env).world
    {
      var got := client.Get(req);
      if got.Err? {
        return IgnoreNotFound(got.error);
      }
      var rec := got.value;
      if rec.spec.kind == PodRc {
        var listed := client.List(PodKind, req.namespace, AppSelector);
        if listed.Err? {
          return Requeue(listed.error);
        }
        var count := |listed.value|;
        if count == rec.spec.count {
          // Ready is set on the held copy only; nothing persists it.
          rec := WithReady(rec);
          return Done;
        }
        if count < rec.spec.count {
          outcome := CreateChildren(rec, PodKind, rec.spec.count - count, env);
        } else {
          outcome := DeleteChildren(listed.value, rec.spec.count - count);
        }
      } else if rec.spec.kind == DeploymentRc {
        var listed := client.List(DeploymentKind, req.namespace, AppSelector);
        if listed.Err? {
          return Requeue(listed.error);
        }
        var count := |listed.value|;
        if count == rec.spec.count {
          outcome, rec := MarkRGBReady(rec);
        } else if count < rec.spec.count {
          outcome := CreateChildren(rec, DeploymentKind, rec.spec.count - count, env);
        } else {
          outcome := DeleteChildren(listed.value, rec.spec.count - count);
        }
      } else {
        return Requeue(UnsupportedKindError);
      }
    }

    /** The create loop: builds, owns and creates `n` children, stopping at the first error. */
    method CreateChildren(rec: RGBResourceManager, kind: RGBSupportedKind, n: int, env: Env) returns (outcome: Outcome)
      modifies client
      ensures outcome == CreateLoop(old(client.State()), rec, kind, ChildNamespace, env, 0, n).outcome
      ensures client.State() == CreateLoop(old(client.State()), rec, kind, ChildNamespace, env, 0, n).world
    {
      var i := 0;
      while i < n
        invariant 0 <= i
        invariant CreateLoop(client.State(), rec, kind, ChildNamespace, env, i, n) == CreateLoop(old(client.State()), rec, kind, ChildNamespace, env, 0, n)
        decreases n - i
      {
        var child := NewChild(rec, kind, ChildNamespace, env.uuid(i));
        if env.ownerRef.Some? {
          return Requeue(env.ownerRef.value);
        }
        var created := client.Create(child);
        if created.Err? {
          return Requeue(created.error);
        }
        i := i + 1;
      }
      return Done;
    }

    /** The delete loop: deletes `children[0..n]` in order, stopping at the first error. */
    method DeleteChildren(children: seq<Item>, n: int) returns (outcome: Outcome)
      requires n <= |children|
      modifies client
      ensures outcome == DeleteLoop(old(client.State()), children, 0, n).outcome
      ensures client.State() == DeleteLoop(old(client.State()), children, 0, n).world
    {
      var i := 0;
      while i < n
        invariant 0 <= i
        invariant DeleteLoop(client.State(), children, i, n) == DeleteLoop(old(client.State()), children, 0, n)
        decreases n - i
      {
        var deleted := client.Delete(children[i]);
        if deleted.Err? {
          return Requeue(deleted.error);
        }
        i := i + 1;
      }
      return Done;
    }

    /** markRGBReady: returns the outcome and the held copy, now marked Ready. */
    method MarkRGBReady(rec: RGBResourceManager) returns (outcome: Outcome, marked: RGBResourceManager)
      modifies client
      ensures outcome == MarkReady(old(client.State()), rec).outcome
      ensures Some(marked) == MarkReady(old(client.State()), rec).held
      ensures client.State() == MarkReady(old(client.State()), rec).world
    {
      marked := WithReady(rec);
      var updated := client.UpdateStatus(KeyOf(marked), marked.status);
      if updated.Err? {
        return Requeue(updated.error), marked;
      }
      return Done, marked;
    }
  }
}
