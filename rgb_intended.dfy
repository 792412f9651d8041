/**
 * The reconcile pass as its comments describe it, next to `Pass` as written:
 * children are created in the record's own namespace, a surplus deletes
 * `count - Spec.Count` children, and a converged pass persists Ready for both
 * kinds.  For this pass the convergence the controller's comments describe is proved.
 */
module RGBIntended {
  import opened Common
  import opened RGBTypes
  import opened RGBObjects
  import opened RGBStore
  import opened RGBController
  import opened RGBProperties

  /** One branch of the intended pass, for either kind. */
  function IntendedBranch(w: World, req: Key, rec: RGBResourceManager, kind: RGBSupportedKind, env: Env): PassResult {
    var listed := ListStep(w, kind, req.namespace, AppSelector);
    if listed.result.Err? then PassResult(Requeue(listed.result.error), listed.world, Some(rec))
    else
      var children := listed.result.value;
      var count := |children|;
      if count == rec.spec.count then MarkReady(listed.world, rec)
      else if count < rec.spec.count then
        var r := CreateLoop(listed.world, rec, kind, req.namespace, env, 0, rec.spec.count - count);
        PassResult(r.outcome, r.world, Some(rec))
      else
        var r := DeleteLoop(listed.world, children, 0, Surplus(count, rec.spec.count));
        PassResult(r.outcome, r.world, Some(rec))
  }

  /** How many of `count` listed children a pass deletes to reach `target`;
      a negative target is read as zero, so at most every listed child goes. */
  function Surplus(count: nat, target: int): (n: nat)
    requires target < count
    ensures n <= count
    ensures 0 <= target ==> count - n == target
    ensures target < 0 ==> n == count
  {
    if target < 0 then count else count - target
  }

  function IntendedPass(w: World, req: Key, env: Env): PassResult {
    var got := GetStep(w, req);
    if got.result.Err? then PassResult(IgnoreNotFound(got.result.error), got.world, None)
    else
      var rec := got.result.value;
      match ParseKind(rec.spec.kind)
      case Some(kind) => IntendedBranch(got.world, req, rec, kind, env)
      case None => PassResult(Requeue(UnsupportedKindError), got.world, Some(rec))
  }

  /** The listed children of a listed pass. */
  function Listing(w: World, req: Key): seq<Item>
    requires req in w.records && KindOf(w.records[req]).Some?
  {
    Select(w.items, KindOf(w.records[req]).value, req.namespace, AppSelector)
  }

  /** Too few children: the intended pass is the create loop into the
      record's own namespace. */
  lemma IntendedPassCreates(w: World, req: Key, env: Env)
    requires Listed(w, req)
    requires Observed(w, req) < w.records[req].spec.count
    ensures var rec := w.records[req];
      var l := CreateLoop(AfterList(w, req), rec, KindOf(rec).value, req.namespace, env, 0, rec.spec.count - Observed(w, req));
      IntendedPass(w, req, env) == PassResult(l.outcome, l.world, Some(rec))
  {
    var got := GetStep(w, req);
    var listed := ListStep(got.world, KindOf(w.records[req]).value, req.namespace, AppSelector);
    assert listed.world == AfterList(w, req);
  }

  /** Too many children: the intended pass is the delete loop over the first
      `count - Spec.Count` listed children. */
  lemma IntendedPassDeletes(w: World, req: Key, env: Env)
    requires Listed(w, req)
    requires Observed(w, req) > w.records[req].spec.count
    ensures var rec := w.records[req];
      var l := DeleteLoop(AfterList(w, req), Listing(w, req), 0, Surplus(Observed(w, req), rec.spec.count));
      IntendedPass(w, req, env) == PassResult(l.outcome, l.world, Some(rec))
  {
    var got := GetStep(w, req);
    var listed := ListStep(got.world, KindOf(w.records[req]).value, req.namespace, AppSelector);
    assert listed.world == AfterList(w, req);
  }

  /** At target, both kinds persist Ready through exactly one status update. */
  lemma IntendedAtTargetPersistsReady(w: World, req: Key, env: Env)
    requires WellKeyed(w)
    requires Listed(w, req)
    requires Observed(w, req) == w.records[req].spec.count
    ensures var rec := w.records[req];
      var at := |w.log| + 2;
      var r := IntendedPass(w, req, env);
      && r.world.log == AfterList(w, req).log + [StatusUpdateCall(req, WithReady(rec).status)]
      && r.world.items == w.items
      && r.outcome == (if at in w.faults then Requeue(w.faults[at]) else Done)
      && r.world.records == (if at in w.faults then w.records else w.records[req := WithReady(rec)])
  {
  }

  /** Creating in the record's own namespace: with owner references set, no
      faults and fresh names, one pass succeeds and the next List observes
      exactly Spec.Count children, whatever the namespace. */
  lemma IntendedCreatesConverge(w: World, req: Key, env: Env)
    requires Listed(w, req)
    requires Observed(w, req) < w.records[req].spec.count
    requires env.ownerRef.None?
    requires NoFaultsFrom(w, |w.log| + 2, w.records[req].spec.count - Observed(w, req))
    requires var rec := w.records[req];
      FreshChildren(w.items, rec, KindOf(rec).value, req.namespace, env, rec.spec.count - Observed(w, req))
    ensures var r := IntendedPass(w, req, env);
      && r.outcome == Done
      && r.world.records == w.records
      && Observed(r.world, req) == w.records[req].spec.count
  {
    IntendedPassCreates(w, req, env);
    IntendedCreateLoopConverges(w, req, env);
  }

  lemma IntendedCreateLoopConverges(w: World, req: Key, env: Env)
    requires Listed(w, req)
    requires Observed(w, req) < w.records[req].spec.count
    requires env.ownerRef.None?
    requires NoFaultsFrom(w, |w.log| + 2, w.records[req].spec.count - Observed(w, req))
    requires var rec := w.records[req];
      FreshChildren(w.items, rec, KindOf(rec).value, req.namespace, env, rec.spec.count - Observed(w, req))
    ensures var rec := w.records[req];
      var l := CreateLoop(AfterList(w, req), rec, KindOf(rec).value, req.namespace, env, 0, rec.spec.count - Observed(w, req));
      && l.outcome == Done
      && l.world.records == w.records
      && Observed(l.world, req) == rec.spec.count
  {
    var rec := w.records[req];
    var kind := KindOf(rec).value;
    var a := AfterList(w, req);
    var n := rec.spec.count - Observed(w, req);
    assert NoFaultsFrom(a, |a.log|, n) by {
      assert |a.log| == |w.log| + 2 && a.faults == w.faults;
    }
    CreateLoopCompletes(a, rec, kind, req.namespace, env, n);
    ObservedAfterCreates(w.items, rec, kind, req.namespace, env, n, req.namespace);
  }

  /** Deleting the surplus: with no faults and distinct listed children, one
      pass deletes the first `count - Spec.Count` of them, in list order, and
      the next List observes exactly Spec.Count children. */
  lemma IntendedDeletesConverge(w: World, req: Key, env: Env)
    requires Listed(w, req)
    requires 0 <= w.records[req].spec.count < Observed(w, req)
    requires NoFaultsFrom(w, |w.log| + 2, Observed(w, req) - w.records[req].spec.count)
    requires Distinct(Listing(w, req))
    ensures var r := IntendedPass(w, req, env);
      && r.outcome == Done
      && r.world.records == w.records
      && r.world.log == AfterList(w, req).log
                        + DeleteCalls(Listing(w, req)[..Observed(w, req) - w.records[req].spec.count])
      && Observed(r.world, req) == w.records[req].spec.count
  {
    IntendedPassDeletes(w, req, env);
    IntendedDeleteLoopConverges(w, req);
  }

  lemma IntendedDeleteLoopConverges(w: World, req: Key)
    requires Listed(w, req)
    requires 0 <= w.records[req].spec.count < Observed(w, req)
    requires NoFaultsFrom(w, |w.log| + 2, Observed(w, req) - w.records[req].spec.count)
    requires Distinct(Listing(w, req))
    ensures var l := DeleteLoop(AfterList(w, req), Listing(w, req), 0, Observed(w, req) - w.records[req].spec.count);
      && l.outcome == Done
      && l.world.records == w.records
      && l.world.log == AfterList(w, req).log
                        + DeleteCalls(Listing(w, req)[..Observed(w, req) - w.records[req].spec.count])
      && Observed(l.world, req) == w.records[req].spec.count
  {
    var rec := w.records[req];
    var a := AfterList(w, req);
    var n := Observed(w, req) - rec.spec.count;
    assert NoFaultsFrom(a, |a.log|, n) by {
      assert |a.log| == |w.log| + 2 && a.faults == w.faults;
    }
    assert Listing(w, req) == Select(a.items, KindOf(rec).value, req.namespace, AppSelector);
    DeleteLoopCompletes(a, Listing(w, req), n, KindOf(rec).value, req.namespace);
  }
}
