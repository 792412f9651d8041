/**
 * UpdateRGB: lists the pods of a namespace (of every namespace, for `""`)
 * that a label selector picks and gives them, in list order, the "color"
 * label red, green, blue, ... by cycling a counter over a three-element
 * palette, updating each pod through the API under the same namespace as it
 * goes.  Every error panics.
 *
 * The counter is reset only once it equals 3, one step after the last valid
 * palette index, so the fourth pod reads `colors[3]` and the loop panics.
 * `Relabelling` is parameterised by the counter value at which the reset
 * happens: `AsWrittenReset` (3) is what UpdateRGB does, `IntendedReset` (2)
 * the evidently intended `(i + 1) % 3`.
 */
module RGBLabeller {
  import opened Common
  import opened RGBObjects

  /** A pod as UpdateRGB handles it; its label map may be nil. */
  datatype Pod = Pod(namespace: string, name: string, labels: Option<Labels>)

  /** The namespace `""`: client-go's `metav1.NamespaceAll`. */
  const NamespaceAll: string := ""

  datatype Error =
    | Failure(reason: string)
    | NamespaceRejected(requested: string, podNamespace: string)

  datatype Call = ListCall(namespace: string, selector: Labels) | UpdateCall(pod: Pod)

  /** The pods of the cluster in list order, the call log and the fault
      oracle: the call issued when the log holds `n` entries fails with
      `faults[n]`. */
  datatype World = World(pods: seq<Pod>, log: seq<Call>, faults: map<nat, Error>)

  datatype Reply<T> = Reply(world: World, result: Result<T, Error>)

  function LabelsOf(p: Pod): Labels {
    if p.labels.None? then map[] else p.labels.value
  }

  /** A pod lies in the scope of a request namespace: that namespace, or
      any namespace under NamespaceAll. */
  predicate InScope(namespace: string, p: Pod) {
    namespace == NamespaceAll || p.namespace == namespace
  }

  /** The pods in the scope of the namespace whose labels the selector
      matches, in list order. */
  function SelectPods(pods: seq<Pod>, namespace: string, selector: Labels): (r: seq<Pod>)
    ensures |r| <= |pods|
    ensures forall p :: p in r ==> p in pods && InScope(namespace, p) && Matches(selector, LabelsOf(p))
    ensures forall p :: p in pods && InScope(namespace, p) && Matches(selector, LabelsOf(p)) ==> p in r
  {
    if |pods| == 0 then []
    else
      var rest := SelectPods(pods[1..], namespace, selector);
      if InScope(namespace, pods[0]) && Matches(selector, LabelsOf(pods[0])) then [pods[0]] + rest else rest
  }

  /** The selection keeps list order: selecting from two lists one after the
      other is the two selections one after the other. */
  lemma {:induction false} SelectPodsAppend(a: seq<Pod>, b: seq<Pod>, namespace: string, selector: Labels)
    ensures SelectPods(a + b, namespace, selector) == SelectPods(a, namespace, selector) + SelectPods(b, namespace, selector)
    decreases |a|
  {
    if |a| == 0 {
      assert a + b == b;
    } else {
      assert (a + b)[0] == a[0];
      assert (a + b)[1..] == a[1..] + b;
      SelectPodsAppend(a[1..], b, namespace, selector);
    }
  }

  function ListStep(w: World, namespace: string, selector: Labels): (r: Reply<seq<Pod>>)
    ensures r.world == w.(log := w.log + [ListCall(namespace, selector)])
    ensures r.result.Ok? <==> |w.log| !in w.faults
    ensures r.result.Ok? ==> r.result.value == SelectPods(w.pods, namespace, selector)
    ensures r.result.Err? ==> r.result.error == w.faults[|w.log|]
  {
    var w' := w.(log := w.log + [ListCall(namespace, selector)]);
    if |w.log| in w.faults then Reply(w', Err(w.faults[|w.log|]))
    else Reply(w', Ok(SelectPods(w.pods, namespace, selector)))
  }

  /** The stored pods after `p` replaces every pod of its identity. */
  function Replace(pods: seq<Pod>, p: Pod): (r: seq<Pod>)
    ensures |r| == |pods|
    ensures forall j :: 0 <= j < |r| ==>
      r[j] == if pods[j].namespace == p.namespace && pods[j].name == p.name then p else pods[j]
  {
    seq(|pods|, j requires 0 <= j < |pods| =>
      if pods[j].namespace == p.namespace && pods[j].name == p.name then p else pods[j])
  }

  /** The stored pods after a sequence of successful updates, applied in order. */
  function ReplaceAll(pods: seq<Pod>, sent: seq<Pod>): seq<Pod>
    decreases |sent|
  {
    if |sent| == 0 then pods else ReplaceAll(Replace(pods, sent[0]), sent[1..])
  }

  /** Why the Update issued at log position `t` through `Pods(namespace)`
      for a pod of `podNamespace` fails, if it does: the fault oracle, or the
      server refusing a request that names no namespace (a PUT under
      NamespaceAll) or another namespace than the pod's. */
  function Refusal(faults: map<nat, Error>, t: nat, namespace: string, podNamespace: string): (r: Option<Error>)
    ensures r.None? <==> t !in faults && namespace != NamespaceAll && podNamespace == namespace
    ensures t in faults ==> r == Some(faults[t])
  {
    if t in faults then Some(faults[t])
    else if namespace == NamespaceAll || podNamespace != namespace then Some(NamespaceRejected(namespace, podNamespace))
    else None
  }

  function UpdateStep(w: World, namespace: string, p: Pod): (r: Reply<()>)
    ensures r.world.log == w.log + [UpdateCall(p)] && r.world.faults == w.faults
    ensures r.result.Ok? <==> Refusal(w.faults, |w.log|, namespace, p.namespace).None?
    ensures r.result.Err? ==> Some(r.result.error) == Refusal(w.faults, |w.log|, namespace, p.namespace)
    ensures r.world.pods == if r.result.Ok? then Replace(w.pods, p) else w.pods
  {
    var w' := w.(log := w.log + [UpdateCall(p)]);
    match Refusal(w.faults, |w.log|, namespace, p.namespace)
    case Some(e) => Reply(w', Err(e))
    case None => Reply(w'.(pods := Replace(w.pods, p)), Ok(()))
  }

  /** The clientset, as far as UpdateRGB uses it. */
  class PodClient {
    var pods: seq<Pod>
    var log: seq<Call>
    const faults: map<nat, Error>

    function State(): World
      reads this
    {
      World(pods, log, faults)
    }

    constructor (w: World)
      ensures State() == w
    {
      pods, log, faults := w.pods, w.log, w.faults;
    }

    method List(namespace: string, selector: Labels) returns (r: Result<seq<Pod>, Error>)
      modifies this
      ensures State() == ListStep(old(State()), namespace, selector).world
      ensures r == ListStep(old(State()), namespace, selector).result
    {
      var reply := ListStep(State(), namespace, selector);
      log := reply.world.log;
      r := reply.result;
    }

    /** `Pods(namespace).Update(p)`. */
    method Update(namespace: string, p: Pod) returns (r: Result<(), Error>)
      modifies this
      ensures State() == UpdateStep(old(State()), namespace, p).world
      ensures r == UpdateStep(old(State()), namespace, p).result
    {
      var reply := UpdateStep(State(), namespace, p);
      pods, log := reply.world.pods, reply.world.log;
      r := reply.result;
    }
  }

  /** Why UpdateRGB panicked. */
  datatype Panic =
    | ListFailed(error: Error)
    | IndexOutOfRange(index: nat)
    | NilMapWrite
    | UpdateFailed(error: Error)

  datatype Outcome = Completed | Panicked(panic: Panic)

  datatype LoopResult = LoopResult(outcome: Outcome, world: World)

  const Colors: seq<string> := ["red", "green", "blue"]

  const AsWrittenReset: nat := 3
  const IntendedReset: nat := 2

  /** The counter step `if i == resetAt { i = 0 } else { i++ }`. */
  function Next(i: nat, resetAt: nat): nat {
    if i == resetAt then 0 else i + 1
  }

  /** `v.Labels["color"] = color` on a pod whose label map is not nil. */
  function Relabel(p: Pod, color: string): (r: Pod)
    requires p.labels.Some?
    ensures r.namespace == p.namespace && r.name == p.name && r.labels.Some?
    ensures "color" in r.labels.value && r.labels.value["color"] == color
    ensures forall k :: k != "color" ==> (k in r.labels.value <==> k in p.labels.value)
    ensures forall k :: k != "color" && k in r.labels.value ==> r.labels.value[k] == p.labels.value[k]
  {
    p.(labels := Some(p.labels.value["color" := color]))
  }

  /** The loop over the listed pods from position `k` on, with counter `i`,
      updating through `Pods(namespace)`. */
  function LabelLoop(w: World, namespace: string, pods: seq<Pod>, k: nat, i: nat, resetAt: nat): LoopResult
    decreases |pods| - k
  {
    if |pods| <= k then LoopResult(Completed, w)
    else if |Colors| <= i then LoopResult(Panicked(IndexOutOfRange(i)), w)
    else if pods[k].labels.None? then LoopResult(Panicked(NilMapWrite), w)
    else
      var updated := UpdateStep(w, namespace, Relabel(pods[k], Colors[i]));
      if updated.result.Err? then LoopResult(Panicked(UpdateFailed(updated.result.error)), updated.world)
      else LabelLoop(updated.world, namespace, pods, k + 1, Next(i, resetAt), resetAt)
  }

  /** One run of UpdateRGB with the counter reset at `resetAt`. */
  function Relabelling(w: World, namespace: string, selector: Labels, resetAt: nat): LoopResult {
    var listed := ListStep(w, namespace, selector);
    if listed.result.Err? then LoopResult(Panicked(ListFailed(listed.result.error)), listed.world)
    else LabelLoop(listed.world, namespace, listed.result.value, 0, 0, resetAt)
  }

  /** UpdateRGB as written; a panic ends the run with `Panicked`. */
  method UpdateRGB(client: PodClient, namespace: string, selector: Labels) returns (outcome: Outcome)
    modifies client
    ensures outcome == Relabelling(old(client.State()), namespace, selector, AsWrittenReset).outcome
    ensures client.State() == Relabelling(old(client.State()), namespace, selector, AsWrittenReset).world
  {
    var listed := client.List(namespace, selector);
    if listed.Err? {
      return Panicked(ListFailed(listed.error));
    }
    outcome := LabelPods(client, namespace, listed.value);
  }

  /** The `for _, v := range pods.Items` loop of UpdateRGB. */
  method LabelPods(client: PodClient, namespace: string, pods: seq<Pod>) returns (outcome: Outcome)
    modifies client
    ensures outcome == LabelLoop(old(client.State()), namespace, pods, 0, 0, AsWrittenReset).outcome
    ensures client.State() == LabelLoop(old(client.State()), namespace, pods, 0, 0, AsWrittenReset).world
  {
    var i := 0;
    var k := 0;
    while k < |pods|
      invariant 0 <= i && k <= |pods|
      invariant LabelLoop(client.State(), namespace, pods, k, i, AsWrittenReset) == LabelLoop(old(client.State()), namespace, pods, 0, 0, AsWrittenReset)
    {
      if |Colors| <= i {
        return Panicked(IndexOutOfRange(i));
      }
      if pods[k].labels.None? {
        return Panicked(NilMapWrite);
      }
      var v := Relabel(pods[k], Colors[i]);
      var updated := client.Update(namespace, v);
      if updated.Err? {
        return Panicked(UpdateFailed(updated.error));
      }
      if i == AsWrittenReset {
        // never taken: the index check above fails first
        i := 0;
      } else {
        i := i + 1;
      }
      k := k + 1;
    }
    return Completed;
  }

  // ---------------------------------------------------------------------------
  // Properties
  // ---------------------------------------------------------------------------

  /** The counter value when the loop reaches pod `k`. */
  function CounterAt(k: nat, resetAt: nat): nat {
    if k == 0 then 0 else Next(CounterAt(k - 1, resetAt), resetAt)
  }

  /** As written, the counter simply counts the pods up to the fourth: the
      reset can only happen after a palette index that does not exist. */
  lemma {:induction false} CounterAsWritten(k: nat)
    requires k <= 3
    ensures CounterAt(k, AsWrittenReset) == k
  {
    if k > 0 {
      CounterAsWritten(k - 1);
    }
  }

  /** With the reset at 2 the counter is the pod position modulo 3. */
  lemma {:induction false} CounterIntended(k: nat)
    ensures CounterAt(k, IntendedReset) == k % 3
  {
    if k > 0 {
      CounterIntended(k - 1);
    }
  }

  /** The pods from `k` to `m` can all be labelled: each has a label map and
      a valid palette index. */
  predicate Labelable(pods: seq<Pod>, k: nat, m: nat, resetAt: nat)
    requires k <= m <= |pods|
  {
    forall j :: k <= j < m ==> pods[j].labels.Some? && CounterAt(j, resetAt) < |Colors|
  }

  /** The objects the loop sends to Update for the pods from `k` to `m`. */
  function SentFrom(pods: seq<Pod>, k: nat, m: nat, resetAt: nat): (r: seq<Pod>)
    requires k <= m <= |pods| && Labelable(pods, k, m, resetAt)
    ensures |r| == m - k
  {
    seq(m - k, j requires 0 <= j < m - k => Relabel(pods[k + j], Colors[CounterAt(k + j, resetAt)]))
  }

  function UpdateCalls(sent: seq<Pod>): (r: seq<Call>)
    ensures |r| == |sent|
  {
    seq(|sent|, j requires 0 <= j < |sent| => UpdateCall(sent[j]))
  }

  /** No fault for the `n` calls from log position `lo` on. */
  ghost predicate NoFaultsFrom(w: World, lo: nat, n: nat) {
    forall t :: lo <= t < lo + n ==> t !in w.faults
  }

  /** What a loop run that started at `k` and labelled the pods up to `m` did,
      by how it ended. */
  predicate Ran(r: LoopResult, w: World, namespace: string, pods: seq<Pod>, k: nat, m: nat, resetAt: nat)
    requires k <= m <= |pods| && Labelable(pods, k, m, resetAt)
  {
    var sent := SentFrom(pods, k, m, resetAt);
    && r.world.faults == w.faults
    && r.world.pods == ReplaceAll(w.pods, sent)
    && match r.outcome
       case Completed => m == |pods| && r.world.log == w.log + UpdateCalls(sent)
       case Panicked(p) =>
         && m < |pods|
         && match p
            case ListFailed(_) => false
            case IndexOutOfRange(i) =>
              i == CounterAt(m, resetAt) && |Colors| <= i && r.world.log == w.log + UpdateCalls(sent)
            case NilMapWrite =>
              CounterAt(m, resetAt) < |Colors| && pods[m].labels.None? && r.world.log == w.log + UpdateCalls(sent)
            case UpdateFailed(e) =>
              && CounterAt(m, resetAt) < |Colors| && pods[m].labels.Some?
              && Refusal(w.faults, |w.log| + (m - k), namespace, pods[m].namespace) == Some(e)
              && r.world.log == w.log + UpdateCalls(sent) + [UpdateCall(Relabel(pods[m], Colors[CounterAt(m, resetAt)]))]
  }

  lemma SentFromCons(pods: seq<Pod>, k: nat, m: nat, resetAt: nat)
    requires k < m <= |pods| && Labelable(pods, k, m, resetAt)
    ensures Labelable(pods, k + 1, m, resetAt)
    ensures SentFrom(pods, k, m, resetAt)
            == [Relabel(pods[k], Colors[CounterAt(k, resetAt)])] + SentFrom(pods, k + 1, m, resetAt)
  {
    assert SentFrom(pods, k, m, resetAt)[1..] == SentFrom(pods, k + 1, m, resetAt);
  }

  lemma UpdateCallsCons(x: Pod, s: seq<Pod>)
    ensures UpdateCalls([x] + s) == [UpdateCall(x)] + UpdateCalls(s)
  {
  }

  lemma ReplaceAllCons(pods: seq<Pod>, x: Pod, s: seq<Pod>)
    ensures ReplaceAll(pods, [x] + s) == ReplaceAll(Replace(pods, x), s)
  {
    assert ([x] + s)[1..] == s;
  }

  /** One successful update in front of the sends from `k + 1` is the sends
      from `k`, for the stored pods and for the log. */
  lemma StepFacts(w: World, w1: World, pods: seq<Pod>, k: nat, m: nat, resetAt: nat)
    requires k < m <= |pods| && Labelable(pods, k, m, resetAt)
    requires w1.log == w.log + [UpdateCall(Relabel(pods[k], Colors[CounterAt(k, resetAt)]))]
    requires w1.pods == Replace(w.pods, Relabel(pods[k], Colors[CounterAt(k, resetAt)]))
    ensures Labelable(pods, k + 1, m, resetAt)
    ensures ReplaceAll(w1.pods, SentFrom(pods, k + 1, m, resetAt)) == ReplaceAll(w.pods, SentFrom(pods, k, m, resetAt))
    ensures w1.log + UpdateCalls(SentFrom(pods, k + 1, m, resetAt)) == w.log + UpdateCalls(SentFrom(pods, k, m, resetAt))
    ensures |w1.log| + (m - (k + 1)) == |w.log| + (m - k)
  {
    var x := Relabel(pods[k], Colors[CounterAt(k, resetAt)]);
    var rest := SentFrom(pods, k + 1, m, resetAt);
    SentFromCons(pods, k, m, resetAt);
    UpdateCallsCons(x, rest);
    ReplaceAllCons(w.pods, x, rest);
  }

  /** The world after one successful update, then a run of the rest, is the
      world after the whole run. */
  lemma RanStep(r: LoopResult, w: World, w1: World, namespace: string, pods: seq<Pod>, k: nat, m: nat, resetAt: nat)
    requires k < m <= |pods| && Labelable(pods, k, m, resetAt)
    requires w1.log == w.log + [UpdateCall(Relabel(pods[k], Colors[CounterAt(k, resetAt)]))]
    requires w1.faults == w.faults
    requires w1.pods == Replace(w.pods, Relabel(pods[k], Colors[CounterAt(k, resetAt)]))
    requires Labelable(pods, k + 1, m, resetAt) && Ran(r, w1, namespace, pods, k + 1, m, resetAt)
    ensures Ran(r, w, namespace, pods, k, m, resetAt)
  {
    if r.outcome.Panicked? && r.outcome.panic.UpdateFailed? {
      RanStepUpdateFailed(r, w, w1, namespace, pods, k, m, resetAt);
    } else {
      StepFacts(w, w1, pods, k, m, resetAt);
    }
  }

  /** RanStep for a run that ends on a refused Update. */
  lemma RanStepUpdateFailed(r: LoopResult, w: World, w1: World, namespace: string, pods: seq<Pod>, k: nat, m: nat, resetAt: nat)
    requires k < m <= |pods| && Labelable(pods, k, m, resetAt)
    requires w1.log == w.log + [UpdateCall(Relabel(pods[k], Colors[CounterAt(k, resetAt)]))]
    requires w1.faults == w.faults
    requires w1.pods == Replace(w.pods, Relabel(pods[k], Colors[CounterAt(k, resetAt)]))
    requires Labelable(pods, k + 1, m, resetAt) && Ran(r, w1, namespace, pods, k + 1, m, resetAt)
    requires r.outcome.Panicked? && r.outcome.panic.UpdateFailed?
    ensures Ran(r, w, namespace, pods, k, m, resetAt)
  {
    StepFacts(w, w1, pods, k, m, resetAt);
    var last := UpdateCall(Relabel(pods[m], Colors[CounterAt(m, resetAt)]));
    assert w1.log + UpdateCalls(SentFrom(pods, k + 1, m, resetAt)) + [last]
        == w.log + UpdateCalls(SentFrom(pods, k, m, resetAt)) + [last];
  }

  lemma NoFaultsCons(w: World, w1: World, n: nat)
    requires |w1.log| == |w.log| + 1 && w1.faults == w.faults && |w.log| !in w.faults
    requires NoFaultsFrom(w1, |w1.log|, n)
    ensures NoFaultsFrom(w, |w.log|, n + 1)
  {
  }

  /** A run that stops at `k` without a successful update labels nothing. */
  lemma StopRun(w: World, namespace: string, pods: seq<Pod>, k: nat, resetAt: nat)
    requires k <= |pods|
    requires || |pods| <= k || |Colors| <= CounterAt(k, resetAt) || pods[k].labels.None?
             || Refusal(w.faults, |w.log|, namespace, pods[k].namespace).Some?
    ensures Labelable(pods, k, k, resetAt) && NoFaultsFrom(w, |w.log|, 0)
    ensures RanFrom(w, namespace, pods, k, k, resetAt)
  {
    assert SentFrom(pods, k, k, resetAt) == [];
    assert w.log + UpdateCalls([]) == w.log;
  }

  /** `Ran` for the loop started at `k` with the counter's own index. */
  predicate RanFrom(w: World, namespace: string, pods: seq<Pod>, k: nat, m: nat, resetAt: nat)
    requires k <= m <= |pods| && Labelable(pods, k, m, resetAt)
  {
    Ran(LabelLoop(w, namespace, pods, k, CounterAt(k, resetAt), resetAt), w, namespace, pods, k, m, resetAt)
  }

  /** Every run of the loop from `k` labels some prefix `k..m` of the pods,
      updating them in order with the counter's colours, and ends as `Ran`
      says; the updates it issued before the last one all succeeded. */
  lemma {:induction false} LoopRun(w: World, namespace: string, pods: seq<Pod>, k: nat, resetAt: nat) returns (m: nat)
    requires k <= |pods|
    ensures k <= m <= |pods| && Labelable(pods, k, m, resetAt)
    ensures NoFaultsFrom(w, |w.log|, m - k)
    ensures RanFrom(w, namespace, pods, k, m, resetAt)
    decreases |pods| - k, 1
  {
    if || |pods| <= k || |Colors| <= CounterAt(k, resetAt) || pods[k].labels.None?
       || Refusal(w.faults, |w.log|, namespace, pods[k].namespace).Some?
    {
      m := k;
      StopRun(w, namespace, pods, k, resetAt);
    } else {
      m := LoopRunCons(w, namespace, pods, k, resetAt);
    }
  }

  /** The inductive step of LoopRun: one successful update in front of a run
      from `k + 1`. */
  lemma {:induction false} LoopRunCons(w: World, namespace: string, pods: seq<Pod>, k: nat, resetAt: nat) returns (m: nat)
    requires k < |pods| && CounterAt(k, resetAt) < |Colors| && pods[k].labels.Some?
    requires Refusal(w.faults, |w.log|, namespace, pods[k].namespace).None?
    ensures k <= m <= |pods| && Labelable(pods, k, m, resetAt)
    ensures NoFaultsFrom(w, |w.log|, m - k)
    ensures RanFrom(w, namespace, pods, k, m, resetAt)
    decreases |pods| - k, 0
  {
    var i := CounterAt(k, resetAt);
    var updated := UpdateStep(w, namespace, Relabel(pods[k], Colors[i]));
    m := LoopRun(updated.world, namespace, pods, k + 1, resetAt);
    forall j | k <= j < m
      ensures pods[j].labels.Some? && CounterAt(j, resetAt) < |Colors|
    {
      if j != k {
        assert k + 1 <= j < m;
      }
    }
    NoFaultsCons(w, updated.world, m - (k + 1));
    RanFromStep(w, namespace, pods, k, m, resetAt);
  }

  lemma RanFromStep(w: World, namespace: string, pods: seq<Pod>, k: nat, m: nat, resetAt: nat)
    requires k < m <= |pods| && Labelable(pods, k, m, resetAt)
    requires Refusal(w.faults, |w.log|, namespace, pods[k].namespace).None?
    requires Labelable(pods, k + 1, m, resetAt)
    requires RanFrom(UpdateStep(w, namespace, Relabel(pods[k], Colors[CounterAt(k, resetAt)])).world, namespace, pods, k + 1, m, resetAt)
    ensures RanFrom(w, namespace, pods, k, m, resetAt)
  {
    var i := CounterAt(k, resetAt);
    var updated := UpdateStep(w, namespace, Relabel(pods[k], Colors[i]));
    assert LabelLoop(w, namespace, pods, k, i, resetAt) == LabelLoop(updated.world, namespace, pods, k + 1, Next(i, resetAt), resetAt);
    assert CounterAt(k + 1, resetAt) == Next(i, resetAt);
    RanStep(LabelLoop(w, namespace, pods, k, i, resetAt), w, updated.world, namespace, pods, k, m, resetAt);
  }

  predicate AllLabelled(pods: seq<Pod>) {
    forall j :: 0 <= j < |pods| ==> pods[j].labels.Some?
  }

  /** The server accepts every update of these pods through
      `Pods(namespace)`: the namespace is named and each pod is in it. */
  predicate Accepted(namespace: string, pods: seq<Pod>) {
    namespace != NamespaceAll && forall j :: 0 <= j < |pods| ==> pods[j].namespace == namespace
  }

  /** A List error panics before any update. */
  lemma ListFailurePanics(w: World, namespace: string, selector: Labels, resetAt: nat)
    requires |w.log| in w.faults
    ensures var r := Relabelling(w, namespace, selector, resetAt);
      && r.outcome == Panicked(ListFailed(w.faults[|w.log|]))
      && r.world == w.(log := w.log + [ListCall(namespace, selector)])
  {
  }

  /** As written, the loop completes only on at most three pods, whatever
      the store does. */
  lemma AsWrittenCompletionNeedsAtMostThree(w: World, namespace: string, pods: seq<Pod>)
    requires LabelLoop(w, namespace, pods, 0, 0, AsWrittenReset).outcome == Completed
    ensures |pods| <= 3
  {
    var m := LoopRun(w, namespace, pods, 0, AsWrittenReset);
    CounterAsWritten(3);
  }

  /** As written, with label maps present, updates the server accepts and
      no faults: the run completes iff there are at most three pods, pod `j`
      getting `Colors[j]`; on a fourth pod it panics on index 3 after
      updating exactly the first three. */
  lemma AsWrittenCompletesIffAtMostThree(w: World, namespace: string, pods: seq<Pod>)
    requires AllLabelled(pods) && Accepted(namespace, pods)
    requires NoFaultsFrom(w, |w.log|, |pods|)
    ensures var r := LabelLoop(w, namespace, pods, 0, 0, AsWrittenReset);
      && (r.outcome == Completed <==> |pods| <= 3)
      && (|pods| <= 3 ==> r.world.log == w.log + UpdateCalls(seq(|pods|, j requires 0 <= j < |pods| => Relabel(pods[j], Colors[j]))))
      && (3 < |pods| ==>
            && r.outcome == Panicked(IndexOutOfRange(3))
            && r.world.log == w.log + UpdateCalls(seq(3, j requires 0 <= j < 3 => Relabel(pods[j], Colors[j]))))
  {
    var m := LoopRun(w, namespace, pods, 0, AsWrittenReset);
    var r := LabelLoop(w, namespace, pods, 0, 0, AsWrittenReset);
    CounterAsWritten(0);
    CounterAsWritten(1);
    CounterAsWritten(2);
    CounterAsWritten(3);
    assert m <= 3;
    if m < |pods| {
      assert |w.log| + m !in w.faults && pods[m].namespace == namespace;
      assert r.outcome.Panicked? && r.outcome.panic.IndexOutOfRange?;
      assert m == 3;
    }
    assert SentFrom(pods, 0, m, AsWrittenReset) == seq(m, j requires 0 <= j < m => Relabel(pods[j], Colors[j]));
  }

  /** An Update failure panics, leaving exactly the earlier pods relabelled. */
  lemma UpdateFailureLeavesPrefix(w: World, namespace: string, pods: seq<Pod>, resetAt: nat)
    requires LabelLoop(w, namespace, pods, 0, 0, resetAt).outcome.Panicked?
    requires LabelLoop(w, namespace, pods, 0, 0, resetAt).outcome.panic.UpdateFailed?
    ensures exists m: nat ::
      && m < |pods| && Labelable(pods, 0, m, resetAt)
      && LabelLoop(w, namespace, pods, 0, 0, resetAt).world.pods == ReplaceAll(w.pods, SentFrom(pods, 0, m, resetAt))
      && Refusal(w.faults, |w.log| + m, namespace, pods[m].namespace).Some?
  {
    var m := LoopRun(w, namespace, pods, 0, resetAt);
    var r := LabelLoop(w, namespace, pods, 0, 0, resetAt);
    assert CounterAt(0, resetAt) == 0;
    assert Ran(r, w, namespace, pods, 0, m, resetAt);
    assert m < |pods| && Refusal(w.faults, |w.log| + m, namespace, pods[m].namespace).Some?;
  }

  /** Pod `j` relabelled with palette entry `j % 3`, for every pod. */
  function Cycled(pods: seq<Pod>): (r: seq<Pod>)
    requires AllLabelled(pods)
    ensures |r| == |pods|
  {
    seq(|pods|, j requires 0 <= j < |pods| => Relabel(pods[j], Colors[j % 3]))
  }

  /** With the reset at 2 the counter always indexes the palette ... */
  lemma IntendedLabelable(pods: seq<Pod>)
    requires AllLabelled(pods)
    ensures Labelable(pods, 0, |pods|, IntendedReset)
  {
    forall j | 0 <= j < |pods|
      ensures CounterAt(j, IntendedReset) < |Colors|
    {
      CounterIntended(j);
    }
  }

  /** ... and sends pod `j` with colour `j % 3`. */
  lemma IntendedSent(pods: seq<Pod>)
    requires AllLabelled(pods) && Labelable(pods, 0, |pods|, IntendedReset)
    ensures SentFrom(pods, 0, |pods|, IntendedReset) == Cycled(pods)
  {
    forall j | 0 <= j < |pods|
      ensures SentFrom(pods, 0, |pods|, IntendedReset)[j] == Cycled(pods)[j]
    {
      CounterIntended(j);
    }
  }

  /** With the reset at 2, label maps present, updates the server accepts
      and no faults, every pod is labelled and the run completes, pod `j`
      getting `Colors[j % 3]`. */
  lemma IntendedLabelsEveryPod(w: World, namespace: string, pods: seq<Pod>)
    requires AllLabelled(pods) && Accepted(namespace, pods)
    requires NoFaultsFrom(w, |w.log|, |pods|)
    ensures var r := LabelLoop(w, namespace, pods, 0, 0, IntendedReset);
      && r.outcome == Completed
      && r.world.log == w.log + UpdateCalls(Cycled(pods))
  {
    var m := LoopRun(w, namespace, pods, 0, IntendedReset);
    IntendedLabelable(pods);
    IntendedSent(pods);
  }

  // ---------------------------------------------------------------------------
  // The namespace argument

  /** Under NamespaceAll the List selects by labels alone, in every namespace. */
  lemma NamespaceAllListsEveryNamespace(pods: seq<Pod>, selector: Labels)
    ensures forall p :: p in SelectPods(pods, NamespaceAll, selector) <==> p in pods && Matches(selector, LabelsOf(p))
  {
  }

  /** A named namespace lists only pods of that namespace, so the server
      accepts their updates. */
  lemma ListedAreAccepted(pods: seq<Pod>, namespace: string, selector: Labels)
    requires namespace != NamespaceAll
    ensures Accepted(namespace, SelectPods(pods, namespace, selector))
  {
    var r := SelectPods(pods, namespace, selector);
    forall j | 0 <= j < |r|
      ensures r[j].namespace == namespace
    {
      assert r[j] in r;
    }
  }

  /** Under NamespaceAll a run that lists any pod panics at the first one:
      on its nil label map, or on the Update, which names no namespace and is
      refused.  No pod is relabelled. */
  lemma {:induction false} NamespaceAllPanicsAtFirstPod(w: World, selector: Labels, resetAt: nat)
    requires |w.log| !in w.faults
    requires |SelectPods(w.pods, NamespaceAll, selector)| > 0
    ensures var r := Relabelling(w, NamespaceAll, selector, resetAt);
      var first := SelectPods(w.pods, NamespaceAll, selector)[0];
      && r.outcome.Panicked?
      && (first.labels.None? ==> r.outcome.panic == NilMapWrite)
      && (first.labels.Some? ==> r.outcome.panic == UpdateFailed(Refusal(w.faults, |w.log| + 1, NamespaceAll, first.namespace).value))
      && r.world.pods == w.pods
  {
    var listed := ListStep(w, NamespaceAll, selector);
    var pods := listed.result.value;
    assert |listed.world.log| == |w.log| + 1;
    assert LabelLoop(listed.world, NamespaceAll, pods, 0, 0, resetAt).world.pods == w.pods;
  }
}
