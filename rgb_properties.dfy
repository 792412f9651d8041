/**
 * What one reconcile pass of the RGB controller does, stated about `Pass`:
 * the error paths, the create loop's applied prefix, the delete loop that
 * never runs, where Ready is and is not persisted, and what the pass never
 * reads or writes.
 */
module RGBProperties {
  import opened Common
  import opened RGBTypes
  import opened RGBObjects
  import opened RGBStore
  import opened RGBController

  // ---------------------------------------------------------------------------
  // Vocabulary

  /** The children iterations i .. k-1 of a create loop build. */
  function Children(rec: RGBResourceManager, kind: RGBSupportedKind, ns: string, env: Env, i: nat, k: nat): (s: seq<Item>)
    requires i <= k
    ensures |s| == k - i
    decreases k - i
  {
    if i == k then [] else [NewChild(rec, kind, ns, env.uuid(i))] + Children(rec, kind, ns, env, i + 1, k)
  }

  function CreateCalls(s: seq<Item>): (r: seq<Call>)
    ensures |r| == |s| && forall t :: 0 <= t < |s| ==> r[t] == CreateCall(s[t])
  {
    if |s| == 0 then [] else [CreateCall(s[0])] + CreateCalls(s[1..])
  }

  function DeleteCalls(s: seq<Item>): (r: seq<Call>)
    ensures |r| == |s| && forall t :: 0 <= t < |s| ==> r[t] == DeleteCall(s[t])
  {
    if |s| == 0 then [] else [DeleteCall(s[0])] + DeleteCalls(s[1..])
  }

  /** The store contents after deleting each of `gone`, in order. */
  function WithoutAll(items: seq<Item>, gone: seq<Item>): seq<Item>
    decreases |gone|
  {
    if |gone| == 0 then items else WithoutAll(Without(items, gone[0]), gone[1..])
  }

  /** The kind a record's Spec.Kind dispatches to, when it is a supported one. */
  function KindOf(rec: RGBResourceManager): Option<RGBSupportedKind> {
    ParseKind(rec.spec.kind)
  }

  /** A pass that gets past Get and the kind check and whose List succeeds. */
  predicate Listed(w: World, req: Key) {
    && |w.log| !in w.faults
    && req in w.records
    && KindOf(w.records[req]).Some?
    && |w.log| + 1 !in w.faults
  }

  /** The number of children such a pass observes. */
  function Observed(w: World, req: Key): nat
    requires req in w.records && KindOf(w.records[req]).Some?
  {
    |Select(w.items, KindOf(w.records[req]).value, req.namespace, AppSelector)|
  }

  /** The world right after the Get and the List of a listed pass. */
  function AfterList(w: World, req: Key): World
    requires req in w.records && KindOf(w.records[req]).Some?
  {
    w.(log := w.log + [GetCall(req), ListCall(KindOf(w.records[req]).value, req.namespace, AppSelector)])
  }

  // ---------------------------------------------------------------------------
  // The factory output for one child

  /** Every child a pass creates: the requested kind, namespace "default",
      name `<record>-<suffix>`, labels exactly {app: rgb, color: Spec.Color}
      (the raw colour string, no default applied) and one nginx container on
      TCP port 80; a Deployment has one replica and selector = template
      labels = {app: rgb}, so its pods never carry the colour. */
  lemma NewChildShape(rec: RGBResourceManager, kind: RGBSupportedKind, ns: string, suffix: string)
    ensures var it := NewChild(rec, kind, ns, suffix);
      && it.Kind() == kind
      && it.Meta().namespace == ns
      && it.Meta().name == rec.name + "-" + suffix
      && it.Meta().labels == map["app" := "rgb", "color" := rec.spec.color]
      && Matches(AppSelector, it.Meta().labels)
      && (it.PodItem? ==> it.pod.containers == [NginxContainer(it.Meta().name)])
      && (it.DeploymentItem? ==>
            && it.deployment.replicas == 1
            && it.deployment.selector == it.deployment.templateLabels == AppSelector
            && "color" !in it.deployment.templateLabels
            && it.deployment.templateContainers == [NginxContainer(it.Meta().name)])
  {
    var it := NewChild(rec, kind, ns, suffix);
    assert it.Meta().labels == map["app" := "rgb"]["color" := rec.spec.color];
  }

  // ---------------------------------------------------------------------------
  // The two loops

  lemma CreateCallsAppend(a: seq<Item>, b: seq<Item>)
    ensures CreateCalls(a + b) == CreateCalls(a) + CreateCalls(b)
  {
    var l, r := CreateCalls(a + b), CreateCalls(a) + CreateCalls(b);
    forall t | 0 <= t < |l|
      ensures l[t] == r[t]
    {
      if t < |a| {
        assert (a + b)[t] == a[t];
      } else {
        assert (a + b)[t] == b[t - |a|];
      }
    }
  }

  lemma DeleteCallsAppend(a: seq<Item>, b: seq<Item>)
    ensures DeleteCalls(a + b) == DeleteCalls(a) + DeleteCalls(b)
  {
    var l, r := DeleteCalls(a + b), DeleteCalls(a) + DeleteCalls(b);
    forall t | 0 <= t < |l|
      ensures l[t] == r[t]
    {
      if t < |a| {
        assert (a + b)[t] == a[t];
      } else {
        assert (a + b)[t] == b[t - |a|];
      }
    }
  }

  lemma AppendStep<T>(base: seq<T>, x: T, rest: seq<T>, whole: seq<T>, result: seq<T>)
    requires whole == [x] + rest && result == (base + [x]) + rest
    ensures result == base + whole
  {
  }

  /** The log index of the call a loop from iteration `i` issues after
      `applied - i` successful ones. */
  function CallIndex(w: World, i: nat, applied: nat): nat
    requires i <= applied
  {
    |w.log| + (applied - i)
  }

  /** What the create loop from iteration `i` leaves behind, once it has
      created `applied` children and issued `issued` Create calls: the counts,
      the store and log contents, and the outcome. */
  ghost predicate CreateEffect(w: World, r: LoopResult, rec: RGBResourceManager, kind: RGBSupportedKind, ns: string,
                               env: Env, i: nat, n: int, applied: nat, issued: nat)
  {
    && CreateCounts(r, env, i, n, applied, issued)
    && CreateContents(w, r, rec, kind, ns, env, i, applied, issued)
    && CreateError(w, r, rec, kind, ns, env, i, applied)
  }

  ghost predicate CreateCounts(r: LoopResult, env: Env, i: nat, n: int, applied: nat, issued: nat) {
    && i <= applied <= issued <= applied + 1
    && (n <= i ==> issued == i)
    && (i < n ==> issued <= n)
    && (r.outcome.Done? <==> applied == issued && (n <= i || applied == n))
    && (r.outcome.Requeue? ==> (issued == applied <==> env.ownerRef.Some?))
  }

  ghost predicate CreateContents(w: World, r: LoopResult, rec: RGBResourceManager, kind: RGBSupportedKind, ns: string,
                                 env: Env, i: nat, applied: nat, issued: nat)
    requires i <= applied <= issued
  {
    && r.world.records == w.records && r.world.faults == w.faults
    && r.world.items == w.items + Children(rec, kind, ns, env, i, applied)
    && r.world.log == w.log + CreateCalls(Children(rec, kind, ns, env, i, issued))
  }

  /** The error a stopped create loop returns: SetControllerReference's, or
      that of the Create call issued after `applied - i` successful ones, which
      is either the injected fault or AlreadyExists for a child whose identity
      the store already holds. */
  ghost predicate CreateError(w: World, r: LoopResult, rec: RGBResourceManager, kind: RGBSupportedKind, ns: string,
                              env: Env, i: nat, applied: nat) {
    && (r.outcome.Requeue? && env.ownerRef.Some? ==> r.outcome.error == env.ownerRef.value)
    && (r.outcome.Requeue? && env.ownerRef.None? && i <= applied ==>
          CreateFailed(w.faults, w.items + Children(rec, kind, ns, env, i, applied), CallIndex(w, i, applied),
                       NewChild(rec, kind, ns, env.uuid(applied)), r.outcome.error))
  }

  /** Why the Create of `child` at log index `at`, into a store holding
      `items`, returned `e`. */
  predicate CreateFailed(faults: map<nat, Error>, items: seq<Item>, at: nat, child: Item, e: Error) {
    if at in faults then e == faults[at] else e == AlreadyExists && Present(items, child)
  }

  /** The create loop from iteration `i`: it creates children one at a time and
      stops at the first error, which it returns; what it leaves behind is
      `CreateEffect`. */
  lemma {:induction false} CreateLoopEffect(w: World, rec: RGBResourceManager, kind: RGBSupportedKind, ns: string,
                                            env: Env, i: nat, n: int)
    returns (applied: nat, issued: nat)
    ensures CreateEffect(w, CreateLoop(w, rec, kind, ns, env, i, n), rec, kind, ns, env, i, n, applied, issued)
    decreases n - i
  {
    if n <= i || env.ownerRef.Some? {
      applied, issued := i, i;
    } else {
      var child := NewChild(rec, kind, ns, env.uuid(i));
      var created := CreateStep(w, child);
      if created.result.Err? {
        applied, issued := i, i + 1;
        assert Children(rec, kind, ns, env, i, i + 1) == [child];
        assert w.items + Children(rec, kind, ns, env, i, i) == w.items;
      } else {
        var r := CreateLoop(created.world, rec, kind, ns, env, i + 1, n);
        assert CreateLoop(w, rec, kind, ns, env, i, n) == r;
        applied, issued := CreateLoopEffect(created.world, rec, kind, ns, env, i + 1, n);
        CreateContentsStep(w, created.world, r, rec, kind, ns, env, i, applied, issued);
        CreateErrorStep(w, created.world, r, rec, kind, ns, env, i, applied);
      }
    }
  }

  lemma CreateErrorStep(w: World, w1: World, r: LoopResult, rec: RGBResourceManager, kind: RGBSupportedKind, ns: string,
                        env: Env, i: nat, applied: nat)
    requires i < applied
    requires w1.faults == w.faults && |w1.log| == |w.log| + 1
    requires w1.items + Children(rec, kind, ns, env, i + 1, applied) == w.items + Children(rec, kind, ns, env, i, applied)
    requires CreateError(w1, r, rec, kind, ns, env, i + 1, applied)
    ensures CreateError(w, r, rec, kind, ns, env, i, applied)
  {
    assert CallIndex(w1, i + 1, applied) == CallIndex(w, i, applied);
  }

  /** One successful iteration extends the store and the log the rest of the
      loop leaves behind by its own child and its own Create call. */
  lemma CreateContentsStep(w: World, w1: World, r: LoopResult, rec: RGBResourceManager, kind: RGBSupportedKind, ns: string,
                           env: Env, i: nat, applied: nat, issued: nat)
    requires i < applied <= issued
    requires w1.records == w.records && w1.faults == w.faults
    requires w1.items == w.items + [NewChild(rec, kind, ns, env.uuid(i))]
    requires w1.log == w.log + [CreateCall(NewChild(rec, kind, ns, env.uuid(i)))]
    requires CreateContents(w1, r, rec, kind, ns, env, i + 1, applied, issued)
    ensures CreateContents(w, r, rec, kind, ns, env, i, applied, issued)
    ensures w1.items + Children(rec, kind, ns, env, i + 1, applied) == w.items + Children(rec, kind, ns, env, i, applied)
  {
    var child := NewChild(rec, kind, ns, env.uuid(i));
    ChildrenCons(rec, kind, ns, env, i, applied);
    AppendStep(w.items, child, Children(rec, kind, ns, env, i + 1, applied), Children(rec, kind, ns, env, i, applied),
               w1.items + Children(rec, kind, ns, env, i + 1, applied));
    ChildrenCons(rec, kind, ns, env, i, issued);
    CreateCallsAppend([child], Children(rec, kind, ns, env, i + 1, issued));
    AppendStep(w.log, CreateCall(child), CreateCalls(Children(rec, kind, ns, env, i + 1, issued)),
               CreateCalls(Children(rec, kind, ns, env, i, issued)), r.world.log);
  }

  lemma ChildrenCons(rec: RGBResourceManager, kind: RGBSupportedKind, ns: string, env: Env, i: nat, k: nat)
    requires i < k
    ensures Children(rec, kind, ns, env, i, k) == [NewChild(rec, kind, ns, env.uuid(i))] + Children(rec, kind, ns, env, i + 1, k)
  {
  }

  /** What the delete loop from iteration `i` leaves behind, once it has
      deleted `children[i..applied]` and issued `issued` Delete calls. */
  ghost predicate DeleteEffect(w: World, r: LoopResult, children: seq<Item>, i: nat, n: int, applied: nat, issued: nat)
  {
    && DeleteCounts(r, i, n, applied, issued)
    && issued <= |children|
    && DeleteContents(w, r, children, i, applied, issued)
    && DeleteError(w, r, children, i, applied)
  }

  ghost predicate DeleteCounts(r: LoopResult, i: nat, n: int, applied: nat, issued: nat) {
    && i <= applied <= issued <= applied + 1
    && (n <= i ==> issued == i)
    && (i < n ==> issued <= n)
    && (r.outcome.Done? <==> applied == issued && (n <= i || applied == n))
  }

  ghost predicate DeleteContents(w: World, r: LoopResult, children: seq<Item>, i: nat, applied: nat, issued: nat)
    requires i <= applied <= issued <= |children|
  {
    && r.world.records == w.records && r.world.faults == w.faults
    && r.world.items == WithoutAll(w.items, children[i..applied])
    && r.world.log == w.log + DeleteCalls(children[i..issued])
  }

  /** The error a stopped delete loop returns: the injected fault of the
      Delete call issued after `applied - i` successful ones, or NotFound for
      a child the store no longer holds. */
  ghost predicate DeleteError(w: World, r: LoopResult, children: seq<Item>, i: nat, applied: nat) {
    r.outcome.Requeue? && i <= applied < |children| ==>
      DeleteFailed(w.faults, WithoutAll(w.items, children[i..applied]), CallIndex(w, i, applied), children[applied], r.outcome.error)
  }

  /** Why the Delete of `child` at log index `at`, from a store holding
      `items`, returned `e`. */
  predicate DeleteFailed(faults: map<nat, Error>, items: seq<Item>, at: nat, child: Item, e: Error) {
    if at in faults then e == faults[at] else e == NotFound && !Present(items, child)
  }

  /** The delete loop from iteration `i`: it deletes `children[i]`, `children[i+1]`,
      ... in order and stops at the first error, which it returns. */
  lemma {:induction false} DeleteLoopEffect(w: World, children: seq<Item>, i: nat, n: int)
    returns (applied: nat, issued: nat)
    requires n <= |children| && i <= |children|
    ensures DeleteEffect(w, DeleteLoop(w, children, i, n), children, i, n, applied, issued)
    decreases n - i
  {
    if n <= i {
      applied, issued := i, i;
    } else {
      var deleted := DeleteStep(w, children[i]);
      if deleted.result.Err? {
        applied, issued := i, i + 1;
        assert children[i..i + 1] == [children[i]];
        assert WithoutAll(w.items, children[i..i]) == w.items;
      } else {
        var r := DeleteLoop(deleted.world, children, i + 1, n);
        assert DeleteLoop(w, children, i, n) == r;
        applied, issued := DeleteLoopEffect(deleted.world, children, i + 1, n);
        DeleteContentsStep(w, deleted.world, r, children, i, applied, issued);
        DeleteErrorStep(w, deleted.world, r, children, i, applied);
      }
    }
  }

  lemma DeleteErrorStep(w: World, w1: World, r: LoopResult, children: seq<Item>, i: nat, applied: nat)
    requires i < applied <= |children|
    requires w1.faults == w.faults && |w1.log| == |w.log| + 1
    requires WithoutAll(w1.items, children[i + 1..applied]) == WithoutAll(w.items, children[i..applied])
    requires DeleteError(w1, r, children, i + 1, applied)
    ensures DeleteError(w, r, children, i, applied)
  {
    assert CallIndex(w1, i + 1, applied) == CallIndex(w, i, applied);
  }

  /** One successful iteration: the rest of the loop starts from the store
      without `children[i]` and a log holding its Delete call. */
  lemma DeleteContentsStep(w: World, w1: World, r: LoopResult, children: seq<Item>, i: nat, applied: nat, issued: nat)
    requires i < applied <= issued <= |children|
    requires w1.records == w.records && w1.faults == w.faults
    requires w1.items == Without(w.items, children[i])
    requires w1.log == w.log + [DeleteCall(children[i])]
    requires DeleteContents(w1, r, children, i + 1, applied, issued)
    ensures DeleteContents(w, r, children, i, applied, issued)
    ensures WithoutAll(w1.items, children[i + 1..applied]) == WithoutAll(w.items, children[i..applied])
  {
    assert children[i..applied] == [children[i]] + children[i + 1..applied];
    assert children[i..applied][1..] == children[i + 1..applied];
    assert children[i..issued] == [children[i]] + children[i + 1..issued];
    DeleteCallsAppend([children[i]], children[i + 1..issued]);
    AppendStep(w.log, DeleteCall(children[i]), DeleteCalls(children[i + 1..issued]),
               DeleteCalls(children[i..issued]), r.world.log);
  }

  // ---------------------------------------------------------------------------
  // What a List observes

  lemma {:induction false} SelectAppend(a: seq<Item>, b: seq<Item>, kind: RGBSupportedKind, ns: string, sel: Labels)
    ensures Select(a + b, kind, ns, sel) == Select(a, kind, ns, sel) + Select(b, kind, ns, sel)
    decreases |a|
  {
    if |a| == 0 {
      assert a + b == b;
    } else {
      assert (a + b)[0] == a[0];
      assert (a + b)[1..] == a[1..] + b;
      SelectAppend(a[1..], b, kind, ns, sel);
    }
  }

  /** A List with the shared selector returns every child a create loop made
      into the listed namespace, and none made into another one. */
  lemma {:induction false} SelectChildren(rec: RGBResourceManager, kind: RGBSupportedKind, ns: string, env: Env,
                                          i: nat, k: nat, listed: string)
    requires i <= k
    ensures Select(Children(rec, kind, ns, env, i, k), kind, listed, AppSelector)
         == if ns == listed then Children(rec, kind, ns, env, i, k) else []
    decreases k - i
  {
    if i < k {
      var c := Children(rec, kind, ns, env, i, k);
      ChildrenCons(rec, kind, ns, env, i, k);
      assert c[0] == NewChild(rec, kind, ns, env.uuid(i));
      assert c[1..] == Children(rec, kind, ns, env, i + 1, k);
      NewChildShape(rec, kind, ns, env.uuid(i));
      SelectChildren(rec, kind, ns, env, i + 1, k, listed);
    }
  }

  /** The shared selector: a child any record creates in a namespace is
      counted by the List of every record of the same kind in that namespace. */
  lemma ChildCountedByEveryRecord(items: seq<Item>, owner: RGBResourceManager, kind: RGBSupportedKind, ns: string,
                                  suffix: string)
    ensures var child := NewChild(owner, kind, ns, suffix);
      Select(items + [child], kind, ns, AppSelector) == Select(items, kind, ns, AppSelector) + [child]
  {
    var child := NewChild(owner, kind, ns, suffix);
    SelectAppend(items, [child], kind, ns, AppSelector);
    NewChildShape(owner, kind, ns, suffix);
    assert [child][1..] == [];
  }

  /** The children of a create loop into `ns`, added after `items`: what a List
      of `listed` observes grows by all of them when the namespaces agree and
      by none otherwise. */
  lemma ObservedAfterCreates(items: seq<Item>, rec: RGBResourceManager, kind: RGBSupportedKind, ns: string, env: Env,
                             k: nat, listed: string)
    ensures |Select(items + Children(rec, kind, ns, env, 0, k), kind, listed, AppSelector)|
         == |Select(items, kind, listed, AppSelector)| + if ns == listed then k else 0
  {
    SelectAppend(items, Children(rec, kind, ns, env, 0, k), kind, listed, AppSelector);
    SelectChildren(rec, kind, ns, env, 0, k, listed);
  }

  /** No injected fault for the `n` calls from log index `lo` on. */
  ghost predicate NoFaultsFrom(w: World, lo: nat, n: int) {
    forall t :: lo <= t < lo + n ==> t !in w.faults
  }

  /** The fresh-name oracle lives up to its name for `n` iterations: no child
      has the identity of one already in the store or made before it. */
  ghost predicate FreshChildren(items: seq<Item>, rec: RGBResourceManager, kind: RGBSupportedKind, ns: string,
                                env: Env, n: int) {
    forall j: nat :: j < n ==> !Present(items + Children(rec, kind, ns, env, 0, j), NewChild(rec, kind, ns, env.uuid(j)))
  }

  /** With owner references set, no faults and fresh names, the create loop
      runs to completion and creates every one of its `n` children. */
  lemma CreateLoopCompletes(w: World, rec: RGBResourceManager, kind: RGBSupportedKind, ns: string, env: Env, n: nat)
    requires env.ownerRef.None?
    requires NoFaultsFrom(w, |w.log|, n)
    requires FreshChildren(w.items, rec, kind, ns, env, n)
    ensures var r := CreateLoop(w, rec, kind, ns, env, 0, n);
      && r.outcome == Done
      && r.world.records == w.records
      && r.world.items == w.items + Children(rec, kind, ns, env, 0, n)
      && r.world.log == w.log + CreateCalls(Children(rec, kind, ns, env, 0, n))
  {
    var r := CreateLoop(w, rec, kind, ns, env, 0, n);
    var applied, issued := CreateLoopEffect(w, rec, kind, ns, env, 0, n);
  }

  /** Deleting an object commutes with listing. */
  lemma {:induction false} SelectWithout(items: seq<Item>, c: Item, kind: RGBSupportedKind, ns: string, sel: Labels)
    ensures Select(Without(items, c), kind, ns, sel) == Without(Select(items, kind, ns, sel), c)
    decreases |items|
  {
    if |items| > 0 {
      var x, t := items[0], items[1..];
      SelectWithout(t, c, kind, ns, sel);
      var st := Select(t, kind, ns, sel);
      assert ([x] + st)[0] == x && ([x] + st)[1..] == st;
      var wt := Without(t, c);
      assert ([x] + wt)[0] == x && ([x] + wt)[1..] == wt;
    }
  }

  lemma {:induction false} SelectWithoutAll(items: seq<Item>, gone: seq<Item>, kind: RGBSupportedKind, ns: string, sel: Labels)
    ensures Select(WithoutAll(items, gone), kind, ns, sel) == WithoutAll(Select(items, kind, ns, sel), gone)
    decreases |gone|
  {
    if |gone| > 0 {
      SelectWithout(items, gone[0], kind, ns, sel);
      SelectWithoutAll(Without(items, gone[0]), gone[1..], kind, ns, sel);
    }
  }

  /** No two entries denote the same object. */
  ghost predicate Distinct(s: seq<Item>) {
    forall a, b :: 0 <= a < b < |s| ==> !SameObject(s[a], s[b])
  }

  lemma {:induction false} WithoutAbsent(s: seq<Item>, c: Item)
    requires forall k :: 0 <= k < |s| ==> !SameObject(s[k], c)
    ensures Without(s, c) == s
    decreases |s|
  {
    if |s| > 0 {
      assert forall k :: 0 <= k < |s[1..]| ==> s[1..][k] == s[k + 1];
      WithoutAbsent(s[1..], c);
      assert [s[0]] + s[1..] == s;
    }
  }

  /** Deleting the first `m` entries of a list of distinct objects leaves the rest. */
  lemma {:induction false} WithoutAllPrefix(s: seq<Item>, m: nat)
    requires Distinct(s) && m <= |s|
    ensures WithoutAll(s, s[..m]) == s[m..]
    decreases m
  {
    if m > 0 {
      assert forall k :: 0 <= k < |s[1..]| ==> s[1..][k] == s[k + 1];
      WithoutAbsent(s[1..], s[0]);
      assert Without(s, s[0]) == s[1..];
      assert s[..m][0] == s[0];
      assert s[..m][1..] == s[1..][..m - 1];
      WithoutAllPrefix(s[1..], m - 1);
      assert s[1..][m - 1..] == s[m..];
    }
  }

  /** While a delete loop works through distinct listed children, the next
      child is still in the store. */
  lemma PresentAfterDeletes(items: seq<Item>, children: seq<Item>, a: nat, kind: RGBSupportedKind, ns: string)
    requires children == Select(items, kind, ns, AppSelector) && Distinct(children) && a <= |children|
    ensures Select(WithoutAll(items, children[..a]), kind, ns, AppSelector) == children[a..]
    ensures a < |children| ==> Present(WithoutAll(items, children[..a]), children[a])
  {
    var rest := WithoutAll(items, children[..a]);
    SelectWithoutAll(items, children[..a], kind, ns, AppSelector);
    WithoutAllPrefix(children, a);
    if a < |children| {
      assert children[a] in Select(rest, kind, ns, AppSelector);
      var k :| 0 <= k < |rest| && rest[k] == children[a];
      assert SameObject(rest[k], children[a]);
    }
  }

  /** With no faults and distinct listed children, a delete loop over the
      first `n` of them deletes them all. */
  lemma DeleteLoopCompletes(w: World, children: seq<Item>, n: nat, kind: RGBSupportedKind, ns: string)
    requires children == Select(w.items, kind, ns, AppSelector) && Distinct(children) && n <= |children|
    requires NoFaultsFrom(w, |w.log|, n)
    ensures var r := DeleteLoop(w, children, 0, n);
      && r.outcome == Done
      && r.world.records == w.records
      && Select(r.world.items, kind, ns, AppSelector) == children[n..]
      && r.world.log == w.log + DeleteCalls(children[..n])
  {
    var applied, issued := DeleteLoopEffect(w, children, 0, n);
    assert children[0..applied] == children[..applied];
    assert children[0..issued] == children[..issued];
    PresentAfterDeletes(w.items, children, applied, kind, ns);
  }

  // ---------------------------------------------------------------------------
  // Get and kind dispatch

  /** A failed Get: NotFound ends the pass successfully, any other error is
      returned unchanged; either way nothing but the Get was issued. */
  lemma GetFailureEndsPass(w: World, req: Key, env: Env)
    requires |w.log| in w.faults || req !in w.records
    ensures var r := Pass(w, req, env);
      && r.world == w.(log := w.log + [GetCall(req)])
      && r.held == None
      && r.outcome == if |w.log| in w.faults then IgnoreNotFound(w.faults[|w.log|]) else Done
  {
  }

  /** A Kind other than "Pod" and "Deployment" is an error, after the Get and
      before any other call. */
  lemma UnsupportedKindRejected(w: World, req: Key, env: Env)
    requires |w.log| !in w.faults && req in w.records
    requires w.records[req].spec.kind !in KindDomain
    ensures var r := Pass(w, req, env);
      && r.outcome == Requeue(UnsupportedKindError)
      && r.world == w.(log := w.log + [GetCall(req)])
  {
  }

  /** A supported kind is always listed in the request's namespace with the
      shared selector app=rgb; when the List fails its error is returned and
      nothing else is issued. */
  lemma ListFailureEndsPass(w: World, req: Key, env: Env)
    requires |w.log| !in w.faults && req in w.records && KindOf(w.records[req]).Some?
    requires |w.log| + 1 in w.faults
    ensures var r := Pass(w, req, env);
      && r.outcome == Requeue(w.faults[|w.log| + 1])
      && r.world == AfterList(w, req)
  {
  }

  // ---------------------------------------------------------------------------
  // The three count cases

  /** Too few children: the pass is the create loop after the List (see
      PassCreates), which creates them one at a time in namespace "default";
      at most Spec.Count - count creates are issued, the first error stops the
      loop and is returned, the store keeps exactly the children created
      before it, and no status is written. */
  lemma CreatePassEffect(w: World, req: Key, env: Env) returns (applied: nat, issued: nat)
    requires Listed(w, req)
    requires Observed(w, req) < w.records[req].spec.count
    ensures var rec := w.records[req];
      var kind := KindOf(rec).value;
      var n := rec.spec.count - Observed(w, req);
      var r := CreateLoop(AfterList(w, req), rec, kind, ChildNamespace, env, 0, n);
      && applied <= issued <= n
      && issued <= applied + 1
      && r.world.records == w.records
      && r.world.items == w.items + Children(rec, kind, ChildNamespace, env, 0, applied)
      && r.world.log == AfterList(w, req).log + CreateCalls(Children(rec, kind, ChildNamespace, env, 0, issued))
      && (r.outcome.Done? <==> applied == n)
      && (r.outcome.Requeue? && env.ownerRef.Some? ==> r.outcome.error == env.ownerRef.value)
      && (r.outcome.Requeue? && env.ownerRef.None? ==>
            CreateFailed(w.faults, w.items + Children(rec, kind, ChildNamespace, env, 0, applied), |w.log| + 2 + applied,
                         NewChild(rec, kind, ChildNamespace, env.uuid(applied)), r.outcome.error))
      && (Admitted(rec.spec) ==> issued <= 5)
  {
    var rec := w.records[req];
    var kind := KindOf(rec).value;
    var n := rec.spec.count - Observed(w, req);
    var a := AfterList(w, req);
    assert a.items == w.items && a.records == w.records && a.faults == w.faults && |a.log| == |w.log| + 2;
    applied, issued := CreateLoopEffect(a, rec, kind, ChildNamespace, env, 0, n);
    assert CallIndex(a, 0, applied) == |w.log| + 2 + applied;
  }

  /** With too few children, the pass is the create loop run on the world
      after the Get and the List. */
  lemma PassCreates(w: World, req: Key, env: Env)
    requires Listed(w, req)
    requires Observed(w, req) < w.records[req].spec.count
    ensures var rec := w.records[req];
      var l := CreateLoop(AfterList(w, req), rec, KindOf(rec).value, ChildNamespace, env, 0, rec.spec.count - Observed(w, req));
      Pass(w, req, env) == PassResult(l.outcome, l.world, Some(rec))
  {
    var rec := w.records[req];
    var got := GetStep(w, req);
    var listed := ListStep(got.world, KindOf(rec).value, req.namespace, AppSelector);
    assert listed.world == AfterList(w, req);
  }

  /** What the next List of the same record observes after a create pass:
      every created child when the record lives in namespace "default", and
      none of them otherwise. */
  lemma CreateLoopObserved(w: World, req: Key, env: Env) returns (applied: nat)
    requires Listed(w, req)
    requires Observed(w, req) < w.records[req].spec.count
    ensures var rec := w.records[req];
      var l := CreateLoop(AfterList(w, req), rec, KindOf(rec).value, ChildNamespace, env, 0, rec.spec.count - Observed(w, req));
      && l.world.records == w.records
      && applied <= rec.spec.count - Observed(w, req)
      && (l.outcome.Done? ==> applied == rec.spec.count - Observed(w, req))
      && Observed(l.world, req) == Observed(w, req) + if req.namespace == ChildNamespace then applied else 0
  {
    var rec := w.records[req];
    var kind := KindOf(rec).value;
    var issued;
    applied, issued := CreatePassEffect(w, req, env);
    ObservedAfterCreates(w.items, rec, kind, ChildNamespace, env, applied, req.namespace);
  }

  /** The namespace mismatch: a record outside namespace "default" never sees
      the children its passes create, so every pass that gets past the List
      observes the same shortfall and creates Spec.Count - count more. */
  lemma ForeignNamespaceNeverConverges(w: World, req: Key, env: Env)
    requires Listed(w, req)
    requires Observed(w, req) < w.records[req].spec.count
    requires req.namespace != ChildNamespace
    ensures var r := Pass(w, req, env);
      && r.world.records == w.records
      && Observed(r.world, req) == Observed(w, req) < w.records[req].spec.count
  {
    PassCreates(w, req, env);
    var applied := CreateLoopObserved(w, req, env);
  }

  /** A refused owner reference, which is what controller-runtime's
      SetControllerReference returns for a record outside namespace "default"
      (it refuses an owner in another namespace than the child): every pass
      with a shortfall returns that error right after the List, and creates
      nothing. */
  lemma OwnerRefusalCreatesNothing(w: World, req: Key, env: Env)
    requires Listed(w, req)
    requires Observed(w, req) < w.records[req].spec.count
    requires env.ownerRef.Some?
    ensures var r := Pass(w, req, env);
      && r.outcome == Requeue(env.ownerRef.value)
      && r.world == AfterList(w, req)
      && r.world.items == w.items
      && r.world.records == w.records
  {
    PassCreates(w, req, env);
    assert AfterList(w, req).items == w.items && AfterList(w, req).records == w.records;
  }

  /** In namespace "default", with owner references set, no faults and fresh
      names, one create pass succeeds and the next List observes exactly
      Spec.Count children. */
  lemma DefaultNamespaceConverges(w: World, req: Key, env: Env)
    requires Listed(w, req)
    requires Observed(w, req) < w.records[req].spec.count
    requires req.namespace == ChildNamespace && env.ownerRef.None?
    requires NoFaultsFrom(w, |w.log| + 2, w.records[req].spec.count - Observed(w, req))
    requires var rec := w.records[req];
      FreshChildren(w.items, rec, KindOf(rec).value, ChildNamespace, env, rec.spec.count - Observed(w, req))
    ensures var r := Pass(w, req, env);
      && r.outcome == Done
      && r.world.records == w.records
      && Observed(r.world, req) == w.records[req].spec.count
  {
    PassCreates(w, req, env);
    CreateLoopConverges(w, req, env);
  }

  lemma CreateLoopConverges(w: World, req: Key, env: Env)
    requires Listed(w, req)
    requires Observed(w, req) < w.records[req].spec.count
    requires req.namespace == ChildNamespace && env.ownerRef.None?
    requires NoFaultsFrom(w, |w.log| + 2, w.records[req].spec.count - Observed(w, req))
    requires var rec := w.records[req];
      FreshChildren(w.items, rec, KindOf(rec).value, ChildNamespace, env, rec.spec.count - Observed(w, req))
    ensures var rec := w.records[req];
      var l := CreateLoop(AfterList(w, req), rec, KindOf(rec).value, ChildNamespace, env, 0, rec.spec.count - Observed(w, req));
      && l.outcome == Done
      && l.world.records == w.records
      && Observed(l.world, req) == rec.spec.count
  {
    var rec := w.records[req];
    var a := AfterList(w, req);
    var n := rec.spec.count - Observed(w, req);
    assert NoFaultsFrom(a, |a.log|, n) by {
      assert |a.log| == |w.log| + 2 && a.faults == w.faults;
    }
    CreateLoopCompletes(a, rec, KindOf(rec).value, ChildNamespace, env, n);
    var applied := CreateLoopObserved(w, req, env);
  }

  /** Too many children: the delete bound Spec.Count - count is negative, so the
      loop body never runs; no Delete is issued and the pass succeeds with every
      surplus child still in place. */
  lemma SurplusIsNeverDeleted(w: World, req: Key, env: Env)
    requires Listed(w, req)
    requires Observed(w, req) > w.records[req].spec.count
    ensures var r := Pass(w, req, env);
      && r.outcome == Done
      && r.world == AfterList(w, req)
      && Observed(r.world, req) == Observed(w, req) > w.records[req].spec.count
  {
  }

  /** Pod kind at target: Ready is set on the held copy only; no status update
      is issued (the markRGBReady call after the first test is unreachable). */
  lemma PodAtTargetMarksOnlyHeldCopy(w: World, req: Key, env: Env)
    requires Listed(w, req) && w.records[req].spec.kind == PodRc
    requires Observed(w, req) == w.records[req].spec.count
    ensures var r := Pass(w, req, env);
      && r.outcome == Done
      && r.world == AfterList(w, req)
      && r.held == Some(WithReady(w.records[req]))
      && r.held.value.status.result == RGBReady
  {
  }

  /** Deployment kind at target: exactly one status update, carrying Ready;
      its error is returned, and on success the stored record is Ready. */
  lemma DeploymentAtTargetPersistsReady(w: World, req: Key, env: Env)
    requires WellKeyed(w)
    requires Listed(w, req) && w.records[req].spec.kind == DeploymentRc
    requires Observed(w, req) == w.records[req].spec.count
    ensures var rec := w.records[req];
      var at := |w.log| + 2;
      var r := Pass(w, req, env);
      && r.world.log == AfterList(w, req).log + [StatusUpdateCall(req, WithReady(rec).status)]
      && r.world.items == w.items
      && r.outcome == (if at in w.faults then Requeue(w.faults[at]) else Done)
      && r.world.records == (if at in w.faults then w.records else w.records[req := WithReady(rec)])
  {
  }

  /** The pass left the stored records alone and issued no status update. */
  ghost predicate NoStatusWrite(w: World, after: World) {
    && after.records == w.records
    && |after.log| >= |w.log|
    && forall c :: c in after.log[|w.log|..] ==> !c.StatusUpdateCall?
  }

  /** A pass that stops at the Get, the kind check or the List issues at most
      those two calls and changes nothing in the store. */
  lemma NotListedWritesNothing(w: World, req: Key, env: Env)
    requires !Listed(w, req)
    ensures var r := Pass(w, req, env);
      && r.world.items == w.items
      && NoStatusWrite(w, r.world)
  {
    if |w.log| in w.faults || req !in w.records {
      GetFailureEndsPass(w, req, env);
    } else if KindOf(w.records[req]).None? {
      UnsupportedKindRejected(w, req, env);
    } else {
      ListFailureEndsPass(w, req, env);
    }
  }

  /** A create pass issues Create calls only. */
  lemma CreatePassWritesNoStatus(w: World, req: Key, env: Env)
    requires Listed(w, req)
    requires Observed(w, req) < w.records[req].spec.count
    ensures NoStatusWrite(w, Pass(w, req, env).world)
  {
    PassCreates(w, req, env);
    CreateLoopWritesNoStatus(w, req, env);
  }

  lemma CreateLoopWritesNoStatus(w: World, req: Key, env: Env)
    requires Listed(w, req)
    requires Observed(w, req) < w.records[req].spec.count
    ensures var rec := w.records[req];
      NoStatusWrite(w, CreateLoop(AfterList(w, req), rec, KindOf(rec).value, ChildNamespace, env, 0, rec.spec.count - Observed(w, req)).world)
  {
    var rec := w.records[req];
    var kind := KindOf(rec).value;
    var l := CreateLoop(AfterList(w, req), rec, kind, ChildNamespace, env, 0, rec.spec.count - Observed(w, req));
    var applied, issued := CreatePassEffect(w, req, env);
    var created := CreateCalls(Children(rec, kind, ChildNamespace, env, 0, issued));
    var listed := [GetCall(req), ListCall(kind, req.namespace, AppSelector)];
    assert AfterList(w, req).log == w.log + listed;
    Reassociate(w.log, listed, created, l.world.log);
    AppendedNoStatus(w.log, listed + created, l.world.log);
  }

  lemma Reassociate<T>(a: seq<T>, b: seq<T>, c: seq<T>, whole: seq<T>)
    requires whole == (a + b) + c
    ensures whole == a + (b + c)
  {
  }

  lemma AppendedNoStatus(base: seq<Call>, added: seq<Call>, whole: seq<Call>)
    requires whole == base + added
    requires forall t :: 0 <= t < |added| ==> added[t].GetCall? || added[t].ListCall? || added[t].CreateCall?
    ensures |whole| >= |base| && forall c :: c in whole[|base|..] ==> !c.StatusUpdateCall?
  {
    assert whole[|base|..] == added;
  }

  /** Only a Deployment pass that observed exactly Spec.Count children can
      write a status; every other pass leaves the stored records alone. */
  lemma StatusWriteNeedsConvergedDeployment(w: World, req: Key, env: Env)
    requires !(Listed(w, req) && w.records[req].spec.kind == DeploymentRc && Observed(w, req) == w.records[req].spec.count)
    ensures NoStatusWrite(w, Pass(w, req, env).world)
  {
    if !Listed(w, req) {
      NotListedWritesNothing(w, req, env);
    } else if Observed(w, req) < w.records[req].spec.count {
      CreatePassWritesNoStatus(w, req, env);
    } else if Observed(w, req) > w.records[req].spec.count {
      SurplusIsNeverDeleted(w, req, env);
    } else {
      PodAtTargetMarksOnlyHeldCopy(w, req, env);
    }
  }

  /** A Pod-kind record's stored status is never written, whatever the counts
      and the faults: no pass on it issues a status update. */
  lemma PodNeverPersistsStatus(w: World, req: Key, env: Env)
    requires req in w.records && w.records[req].spec.kind == PodRc
    ensures NoStatusWrite(w, Pass(w, req, env).world)
  {
    StatusWriteNeedsConvergedDeployment(w, req, env);
  }

  /** A status update is issued only by a Deployment pass that observed exactly
      Spec.Count children; such a pass issues exactly Get, List and the update
      of the request's record to Ready, and no Create or Delete. */
  lemma StatusWrittenOnlyWhenConverged(w: World, req: Key, env: Env)
    requires WellKeyed(w)
    ensures var r := Pass(w, req, env);
      |r.world.log| >= |w.log| &&
      (exists c :: c in r.world.log[|w.log|..] && c.StatusUpdateCall?) ==>
        && Listed(w, req)
        && w.records[req].spec.kind == DeploymentRc
        && Observed(w, req) == w.records[req].spec.count
        && r.world.log[|w.log|..] == [GetCall(req), ListCall(DeploymentKind, req.namespace, AppSelector),
                                      StatusUpdateCall(req, WithReady(w.records[req]).status)]
  {
    if Listed(w, req) && w.records[req].spec.kind == DeploymentRc && Observed(w, req) == w.records[req].spec.count {
      DeploymentAtTargetPersistsReady(w, req, env);
      var r := Pass(w, req, env);
      assert r.world.log[|w.log|..] == [GetCall(req), ListCall(DeploymentKind, req.namespace, AppSelector),
                                        StatusUpdateCall(req, WithReady(w.records[req]).status)];
    } else {
      StatusWriteNeedsConvergedDeployment(w, req, env);
    }
  }

  // ---------------------------------------------------------------------------
  // What a pass never writes and never reads

  /** Status.Active and the spec of every stored record survive any pass, and
      a stored Status.Result either stays as it was or becomes Ready. */
  lemma ActiveNeverWritten(w: World, req: Key, env: Env)
    requires WellKeyed(w)
    ensures var r := Pass(w, req, env);
      && r.world.records.Keys == w.records.Keys
      && forall k :: k in w.records ==>
           && r.world.records[k].spec == w.records[k].spec
           && r.world.records[k].status.active == w.records[k].status.active
           && r.world.records[k].status.result in {w.records[k].status.result, RGBReady}
  {
    if Listed(w, req) && w.records[req].spec.kind == DeploymentRc && Observed(w, req) == w.records[req].spec.count {
      DeploymentAtTargetPersistsReady(w, req, env);
    } else {
      StatusWriteNeedsConvergedDeployment(w, req, env);
    }
  }

  /** The record with its Group and Version replaced. */
  function WithGroupVersion(w: World, req: Key, group: string, version: string): (w': World)
    requires req in w.records
    ensures w'.items == w.items && w'.log == w.log && w'.faults == w.faults
    ensures w'.records.Keys == w.records.Keys
  {
    var rec := w.records[req];
    w.(records := w.records[req := rec.(spec := rec.spec.(group := group, version := version))])
  }

  /** The create loop reads the record only for its name and colour, and the
      store only for its items, log and faults. */
  lemma {:induction false} CreateLoopIgnoresRecords(w: World, w': World, rec: RGBResourceManager, rec': RGBResourceManager,
                                                    kind: RGBSupportedKind, ns: string, env: Env, i: nat, n: int)
    requires w'.items == w.items && w'.log == w.log && w'.faults == w.faults
    requires rec'.name == rec.name && rec'.spec.color == rec.spec.color
    ensures var l := CreateLoop(w, rec, kind, ns, env, i, n);
      var l' := CreateLoop(w', rec', kind, ns, env, i, n);
      l'.outcome == l.outcome && l'.world.items == l.world.items && l'.world.log == l.world.log
    decreases n - i
  {
    if i < n && env.ownerRef.None? {
      var child := NewChild(rec, kind, ns, env.uuid(i));
      assert NewChild(rec', kind, ns, env.uuid(i)) == child;
      var created := CreateStep(w, child);
      var created' := CreateStep(w', child);
      if created.result.Ok? {
        CreateLoopIgnoresRecords(created.world, created'.world, rec, rec', kind, ns, env, i + 1, n);
      }
    }
  }

  /** Spec.Group and Spec.Version are never consulted: changing them changes
      neither the outcome of a pass nor the calls it issues nor the items it
      leaves behind. */
  lemma GroupVersionNotConsulted(w: World, req: Key, env: Env, group: string, version: string)
    requires req in w.records
    ensures var r := Pass(w, req, env);
      var r' := Pass(WithGroupVersion(w, req, group, version), req, env);
      r'.outcome == r.outcome && r'.world.items == r.world.items && r'.world.log == r.world.log
  {
    if Listed(w, req) && Observed(w, req) < w.records[req].spec.count {
      GroupVersionNotConsultedByCreates(w, req, env, group, version);
    } else if Listed(w, req) {
      GroupVersionNotConsultedAtOrAbove(w, req, env, group, version);
    } else {
      GroupVersionNotConsultedBeforeList(w, req, env, group, version);
    }
  }

  lemma GroupVersionNotConsultedBeforeList(w: World, req: Key, env: Env, group: string, version: string)
    requires req in w.records && !Listed(w, req)
    ensures var r := Pass(w, req, env);
      var r' := Pass(WithGroupVersion(w, req, group, version), req, env);
      r'.outcome == r.outcome && r'.world.items == r.world.items && r'.world.log == r.world.log
  {
    var w' := WithGroupVersion(w, req, group, version);
    if |w.log| in w.faults {
      GetFailureEndsPass(w, req, env);
      GetFailureEndsPass(w', req, env);
    } else if KindOf(w.records[req]).None? {
      UnsupportedKindRejected(w, req, env);
      UnsupportedKindRejected(w', req, env);
    } else {
      ListFailureEndsPass(w, req, env);
      ListFailureEndsPass(w', req, env);
    }
  }

  lemma GroupVersionNotConsultedAtOrAbove(w: World, req: Key, env: Env, group: string, version: string)
    requires Listed(w, req) && Observed(w, req) >= w.records[req].spec.count
    ensures var r := Pass(w, req, env);
      var r' := Pass(WithGroupVersion(w, req, group, version), req, env);
      r'.outcome == r.outcome && r'.world.items == r.world.items && r'.world.log == r.world.log
  {
    var w' := WithGroupVersion(w, req, group, version);
    assert Listed(w', req) && Observed(w', req) == Observed(w, req);
  }

  lemma GroupVersionNotConsultedByCreates(w: World, req: Key, env: Env, group: string, version: string)
    requires Listed(w, req) && Observed(w, req) < w.records[req].spec.count
    ensures var r := Pass(w, req, env);
      var r' := Pass(WithGroupVersion(w, req, group, version), req, env);
      r'.outcome == r.outcome && r'.world.items == r.world.items && r'.world.log == r.world.log
  {
    var w' := WithGroupVersion(w, req, group, version);
    var rec, rec' := w.records[req], w'.records[req];
    assert Listed(w', req) && Observed(w', req) == Observed(w, req);
    PassCreates(w, req, env);
    PassCreates(w', req, env);
    CreateLoopIgnoresRecords(AfterList(w, req), AfterList(w', req), rec, rec', KindOf(rec).value, ChildNamespace, env,
                             0, rec.spec.count - Observed(w, req));
  }
}
