# A verified model of the RGB controllers, the inventory data store and the backup retention script

This project models, in Dafny, the working core of six small programs of one repository, and proves what they do:

- **The RGB resource manager controller.** It is a Kubernetes reconciler for `RGBResourceManager` records. One pass does the following:
  - fetches the record;
  - dispatches on `Spec.Kind` (`Pod` or `Deployment`);
  - lists the children labelled `app=rgb` in the request's namespace;
  - compares their number with `Spec.Count`;
  - creates missing children one at a time, in namespace `default`, or runs a delete loop;
  - marks the record `Ready`.

  The API server is a value `World`: its records and objects, a log of the calls issued, and a fault oracle (the call issued when the log holds `n` entries fails with `faults[n]`). `RGBStore.Store` is the mutable client over it. `RGBController.Pass` is the specification of one pass. `RGBResourceManagerReconciler.Reconcile` is the imperative pass, with its loops, proved equal to `Pass`. `RGBProperties` proves what a pass does, as written. `RGBIntended` proves what the corrected pass would do.
- **The ReplicaSet pod-count labeller** (controller-runtime). One pass:
  - reads a ReplicaSet;
  - counts the pods its template labels select;
  - writes that count into the `pod-count` label;
  - updates the ReplicaSet;
  - deletes it when it carries `delete=true`.
- **The pod colour cycler** `UpdateRGB` (client-go). It lists pods and gives each a `color` label from a three-entry palette, driven by a counter.
- **The inventory `DataStore`.** It is a memoising reader of an enabled-application list, per-environment YAML files and per-application environment listings, over an abstract disk. It also includes `GetUserList`.
- **Two inventory helpers:**
  - `envSlicesEqualUnordered`, a three-loop multiset comparison;
  - the `ApiAuth` bearer-token check.
- **The backup script's retention policy** (`backup-proc.py`):
  - it creates the `backup_<timestamp>` folder;
  - it keeps the newest `MAX_BACKUPS` (5) `backup_*` directories, removing the older ones and tolerating failed removals;
  - it appends the `[CREATED]`/`[DELETED]` changelog lines;
  - `main` runs the steps in order and exits 1 at the first that fails.

Files:

| File | Contents |
|---|---|
| `common.dfy` | Option/Result, Go string helpers, decimal numerals |
| `rgb_types.dfy` | The custom resource's enums and records |
| `rgb_objects.dfy` | Pod and Deployment objects and their factories |
| `rgb_store.dfy` | The API server and its client |
| `rgb_controller.dfy` | The RGB pass and the reconciler |
| `rgb_properties.dfy`, `rgb_intended.dfy` | Properties of the RGB pass, as written and as intended |
| `replicaset_controller.dfy` | The ReplicaSet labeller |
| `rgb_labeller.dfy` | `UpdateRGB` |
| `datastore.dfy` | The inventory `DataStore` |
| `env_slices.dfy` | `envSlicesEqualUnordered` |
| `auth.dfy` | `ApiAuth` |
| `backup.dfy` | The backup script |

The model follows the code, including where the code does something other than its own comments and sibling branches say it should. For the RGB controller, the intent is taken from its comments: "Final state achieved, mark rgb as ready" (`rgbresourcemanager_controller.go:91` and `:97`) and "Total Pods less then expected, create" (`:101`). The Deployment branch (`:150-153`), which does persist `Ready`, is the model for the Pod branch. For `rgb.go`, the intent is a three-colour palette cycled over the pods. The differences are listed under "## Findings":

- a delete loop that never runs;
- a Pod branch that never persists `Ready`;
- children created outside the namespace that is listed;
- a palette index that runs off the end;
- a nil dereference.

Each difference is paired with a corrected definition and the property it was meant to have.

## Model

| member | source | states |
|---|---|---|
| Common.TrimSuffix | inventory/src/app/datastore.go:172 | drops the suffix exactly when the string ends in it, else returns the string unchanged |
| Common.Decimal | k8s/v/assignment1/controller-runtime/main.go:80 | the `%v` rendering of a count is a non-empty digit string with no leading zero |
| Common.ParseDecimal | k8s/v/assignment1/controller-runtime/main.go:80 | reading a label value as a number succeeds exactly on non-empty digit strings |
| Common.DecimalRoundTrip | k8s/v/assignment1/controller-runtime/main.go:80 | reading back the rendered pod count gives the count |
| Common.DecimalInjective | k8s/v/assignment1/controller-runtime/main.go:80 | two different pod counts never produce the same label value |
| RGBTypes.ParseColor | k8s/v/assignment2_3/rgbcrd/api/v1/rgbresourcemanager_types.go:27-38 | a colour string names a colour exactly when it is Red, Green or Blue, and names that one |
| RGBTypes.ParseGroup | k8s/v/assignment2_3/rgbcrd/api/v1/rgbresourcemanager_types.go:40-46 | the group domain is exactly core and apps |
| RGBTypes.ParseKind | k8s/v/assignment2_3/rgbcrd/api/v1/rgbresourcemanager_types.go:55-61 | the kind domain is exactly Pod and Deployment |
| RGBTypes.ParseStatus | k8s/v/assignment2_3/rgbcrd/api/v1/rgbresourcemanager_types.go:63-69 | the status domain is exactly Initial and Ready |
| RGBTypes.NamesRoundTrip | k8s/v/assignment2_3/rgbcrd/api/v1/rgbresourcemanager_types.go:27-69 | every enum value's name parses back to that value |
| RGBTypes.AdmittedKindIsSupported | k8s/v/assignment2_3/rgbcrd/api/v1/rgbresourcemanager_types.go:71-87 | an admitted spec has a supported kind and a positive count (2 to 5) |
| RGBObjects.Item.WithLabel | k8s/v/assignment2_3/rgbcrd/controllers/rgbresourcemanager_controller.go:108 | setting `Labels["color"]` changes that one label of the object's own metadata; the kind and a deployment's selector, template labels and replicas stay as they were |
| RGBObjects.NginxContainer | k8s/v/assignment2_3/rgbcrd/controllers/rgbresourcemanager_controller.go:262-271 | the single container is nginx, named after the object, with one TCP port 80 named http |
| RGBObjects.CreatePodObj | k8s/v/assignment2_3/rgbcrd/controllers/rgbresourcemanager_controller.go:250-276 | the pod has the given name and namespace, exactly one label `{key: value}`, and one nginx container |
| RGBObjects.CreateDeploymentObj | k8s/v/assignment2_3/rgbcrd/controllers/rgbresourcemanager_controller.go:207-248 | the deployment has the given name, namespace and replicas; its labels, selector and template labels are the same single label; its template holds the pod factory's container |
| RGBObjects.DeploymentSelectsOwnTemplate | k8s/v/assignment2_3/rgbcrd/controllers/rgbresourcemanager_controller.go:216-228 | a created deployment's selector matches its own template labels |
| RGBStore.GetStep | k8s/v/assignment2_3/rgbcrd/controllers/rgbresourcemanager_controller.go:70 | a Get is logged and succeeds exactly when not faulted and the record exists; otherwise it returns the fault or NotFound |
| RGBStore.Select | k8s/v/assignment2_3/rgbcrd/controllers/rgbresourcemanager_controller.go:79-81 | a List by kind, namespace and labels returns only objects of that kind and namespace whose labels match |
| RGBStore.ListStep | k8s/v/assignment2_3/rgbcrd/controllers/rgbresourcemanager_controller.go:79-85 | a List is logged and succeeds exactly when not faulted, with the selected objects in store order |
| RGBStore.CreateStep | k8s/v/assignment2_3/rgbcrd/controllers/rgbresourcemanager_controller.go:114 | a Create succeeds exactly when not faulted and no object of that identity exists, and then appends it; records are untouched |
| RGBStore.Without | k8s/v/assignment2_3/rgbcrd/controllers/rgbresourcemanager_controller.go:127 | deleting leaves only objects of other identities |
| RGBStore.DeleteStep | k8s/v/assignment2_3/rgbcrd/controllers/rgbresourcemanager_controller.go:127 | a Delete succeeds exactly when not faulted and the object exists, and then removes it; records are untouched |
| RGBStore.UpdateStatusStep | k8s/v/assignment2_3/rgbcrd/controllers/rgbresourcemanager_controller.go:282 | a status update succeeds exactly when not faulted and the record exists, and then replaces only that record's status |
| RGBStore.Store.constructor | k8s/v/assignment2_3/rgbcrd/controllers/rgbresourcemanager_controller.go:61 | the client starts on the given server state |
| RGBStore.Store.Get | k8s/v/assignment2_3/rgbcrd/controllers/rgbresourcemanager_controller.go:70 | the client's Get changes the state and answers as GetStep |
| RGBStore.Store.List | k8s/v/assignment2_3/rgbcrd/controllers/rgbresourcemanager_controller.go:79-81 | the client's List changes the state and answers as ListStep |
| RGBStore.Store.Create | k8s/v/assignment2_3/rgbcrd/controllers/rgbresourcemanager_controller.go:114 | the client's Create changes the state and answers as CreateStep |
| RGBStore.Store.Delete | k8s/v/assignment2_3/rgbcrd/controllers/rgbresourcemanager_controller.go:127 | the client's Delete changes the state and answers as DeleteStep |
| RGBStore.Store.UpdateStatus | k8s/v/assignment2_3/rgbcrd/controllers/rgbresourcemanager_controller.go:282 | the client's status update changes the state and answers as UpdateStatusStep |
| RGBController.IgnoreNotFound | k8s/v/assignment2_3/rgbcrd/controllers/rgbresourcemanager_controller.go:71-73 | a Get error ends the pass successfully exactly when it is NotFound, and is otherwise returned unchanged |
| RGBController.RGBResourceManagerReconciler.constructor | k8s/v/assignment2_3/rgbcrd/controllers/rgbresourcemanager_controller.go:61 | the reconciler works on the client it is given |
| RGBController.RGBResourceManagerReconciler.Reconcile | k8s/v/assignment2_3/rgbcrd/controllers/rgbresourcemanager_controller.go:61-196 | the imperative pass returns the outcome and leaves the server state that `Pass` specifies |
| RGBController.RGBResourceManagerReconciler.CreateChildren | k8s/v/assignment2_3/rgbcrd/controllers/rgbresourcemanager_controller.go:100-121 | the create `for` loop, with its early returns, has the effect of `CreateLoop` |
| RGBController.RGBResourceManagerReconciler.DeleteChildren | k8s/v/assignment2_3/rgbcrd/controllers/rgbresourcemanager_controller.go:122-134 | the delete `for` loop, with its early returns, has the effect of `DeleteLoop` |
| RGBController.RGBResourceManagerReconciler.MarkRGBReady | k8s/v/assignment2_3/rgbcrd/controllers/rgbresourcemanager_controller.go:278-289 | sets Ready on the held copy, issues one status update and returns its error |
| RGBProperties.Children | k8s/v/assignment2_3/rgbcrd/controllers/rgbresourcemanager_controller.go:104-108 | iterations i to k-1 build exactly k-i children |
| RGBProperties.CreateCalls | k8s/v/assignment2_3/rgbcrd/controllers/rgbresourcemanager_controller.go:114 | the log entries of a run of creates are one Create per child, in order |
| RGBProperties.DeleteCalls | k8s/v/assignment2_3/rgbcrd/controllers/rgbresourcemanager_controller.go:127 | the log entries of a run of deletes are one Delete per child, in order |
| RGBProperties.NewChildShape | k8s/v/assignment2_3/rgbcrd/controllers/rgbresourcemanager_controller.go:106-108 | every child has the requested kind, name `Name + "-" + suffix`, the pass's namespace and labels exactly `{app: rgb, color: Spec.Color}`, the raw colour string with no default applied |
| RGBProperties.CreateLoopEffect | k8s/v/assignment2_3/rgbcrd/controllers/rgbresourcemanager_controller.go:104-121 | the create loop issues at most n creates in order, stops at the first error and returns it (the owner-reference error, the injected fault or AlreadyExists), keeps exactly the children created before it, and touches no record |
| RGBProperties.DeleteLoopEffect | k8s/v/assignment2_3/rgbcrd/controllers/rgbresourcemanager_controller.go:125-133 | the delete loop deletes the listed children in order, stops at the first error (the injected fault or NotFound) and returns it, and leaves exactly the earlier deletions applied |
| RGBProperties.SelectChildren | k8s/v/assignment2_3/rgbcrd/controllers/rgbresourcemanager_controller.go:79-81 | a List with `app=rgb` returns every created child of the listed namespace and none created elsewhere |
| RGBProperties.ChildCountedByEveryRecord | k8s/v/assignment2_3/rgbcrd/controllers/rgbresourcemanager_controller.go:81 | the selector is shared: a child any record creates is counted by every record of that kind listing that namespace |
| RGBProperties.ObservedAfterCreates | k8s/v/assignment2_3/rgbcrd/controllers/rgbresourcemanager_controller.go:79-81 | after k creates into a namespace, a List of the same namespace sees k more objects, and a List of another sees none more |
| RGBProperties.CreateLoopCompletes | k8s/v/assignment2_3/rgbcrd/controllers/rgbresourcemanager_controller.go:104-121 | without faults, with owner references set and fresh names, the loop creates all n children and succeeds |
| RGBProperties.SelectWithout | k8s/v/assignment2_3/rgbcrd/controllers/rgbresourcemanager_controller.go:127 | deleting an object and then listing equals listing and then removing it |
| RGBProperties.WithoutAllPrefix | k8s/v/assignment2_3/rgbcrd/controllers/rgbresourcemanager_controller.go:125-133 | deleting the first m of a list of distinct objects leaves the rest |
| RGBProperties.PresentAfterDeletes | k8s/v/assignment2_3/rgbcrd/controllers/rgbresourcemanager_controller.go:125-133 | while a delete loop works through distinct listed children, the next child is still present |
| RGBProperties.DeleteLoopCompletes | k8s/v/assignment2_3/rgbcrd/controllers/rgbresourcemanager_controller.go:125-133 | without faults, a delete loop over n distinct listed children deletes exactly those n |
| RGBProperties.GetFailureEndsPass | k8s/v/assignment2_3/rgbcrd/controllers/rgbresourcemanager_controller.go:69-73 | a failed Get ends the pass with only the Get issued: NotFound gives success, and any other error is returned unchanged |
| RGBProperties.UnsupportedKindRejected | k8s/v/assignment2_3/rgbcrd/controllers/rgbresourcemanager_controller.go:191-193 | a kind other than Pod or Deployment gives the error "unsupported kind in rgb" after the Get alone |
| RGBProperties.ListFailureEndsPass | k8s/v/assignment2_3/rgbcrd/controllers/rgbresourcemanager_controller.go:79-85 | the List uses the request's namespace and `app=rgb`; a List error is returned with nothing else issued |
| RGBProperties.CreatePassEffect | k8s/v/assignment2_3/rgbcrd/controllers/rgbresourcemanager_controller.go:100-121 | with too few children, at most Spec.Count - count creates are issued in namespace default, at most 5 for an admitted spec; the first error stops the pass and is returned; exactly the earlier children remain; no record is written |
| RGBProperties.PassCreates | k8s/v/assignment2_3/rgbcrd/controllers/rgbresourcemanager_controller.go:100-102 | with too few children the pass is the create loop of Spec.Count - count iterations after the Get and the List |
| RGBProperties.CreateLoopObserved | k8s/v/assignment2_3/rgbcrd/controllers/rgbresourcemanager_controller.go:104-121 | the next List of the record sees every created child when the record lives in default, and none otherwise |
| RGBProperties.ForeignNamespaceNeverConverges | k8s/v/assignment2_3/rgbcrd/controllers/rgbresourcemanager_controller.go:80-107 | a record outside namespace default sees the same shortfall after every create pass |
| RGBProperties.OwnerRefusalCreatesNothing | k8s/v/assignment2_3/rgbcrd/controllers/rgbresourcemanager_controller.go:107-112 | a refused owner reference, as for a record outside namespace default, makes the pass return that error right after the List, before any Create |
| RGBProperties.DefaultNamespaceConverges | k8s/v/assignment2_3/rgbcrd/controllers/rgbresourcemanager_controller.go:100-121 | in namespace default, without faults and with fresh names, one create pass succeeds and the next List sees exactly Spec.Count children |
| RGBProperties.SurplusIsNeverDeleted | k8s/v/assignment2_3/rgbcrd/controllers/rgbresourcemanager_controller.go:122-134 | with too many children the loop bound is negative: no Delete is issued, the pass succeeds and the surplus stays |
| RGBProperties.PodAtTargetMarksOnlyHeldCopy | k8s/v/assignment2_3/rgbcrd/controllers/rgbresourcemanager_controller.go:90-99 | a Pod record at target is marked Ready only in the held copy; no status update is issued and the pass succeeds |
| RGBProperties.DeploymentAtTargetPersistsReady | k8s/v/assignment2_3/rgbcrd/controllers/rgbresourcemanager_controller.go:150-153 | a Deployment record at target gets exactly one status update carrying Ready; its error is returned, and on success the stored record is Ready |
| RGBProperties.NotListedWritesNothing | k8s/v/assignment2_3/rgbcrd/controllers/rgbresourcemanager_controller.go:69-85 | a pass that stops at the Get, the kind check or the List issues no Create, Delete or status update |
| RGBProperties.CreatePassWritesNoStatus | k8s/v/assignment2_3/rgbcrd/controllers/rgbresourcemanager_controller.go:100-121 | a create pass never writes a status |
| RGBProperties.StatusWriteNeedsConvergedDeployment | k8s/v/assignment2_3/rgbcrd/controllers/rgbresourcemanager_controller.go:150-153 | only a Deployment pass that saw exactly Spec.Count children writes a status |
| RGBProperties.PodNeverPersistsStatus | k8s/v/assignment2_3/rgbcrd/controllers/rgbresourcemanager_controller.go:76-135 | a Pod record's stored status is never written, whatever the counts |
| RGBProperties.StatusWrittenOnlyWhenConverged | k8s/v/assignment2_3/rgbcrd/controllers/rgbresourcemanager_controller.go:150-153 | a pass changes a stored record only by one Ready status update for a converged Deployment |
| RGBProperties.ActiveNeverWritten | k8s/v/assignment2_3/rgbcrd/api/v1/rgbresourcemanager_types.go:94-96 | no pass changes any record's Status.Active or spec |
| RGBProperties.WithGroupVersion | k8s/v/assignment2_3/rgbcrd/api/v1/rgbresourcemanager_types.go:79-80 | replaces only the record's Group and Version |
| RGBProperties.CreateLoopIgnoresRecords | k8s/v/assignment2_3/rgbcrd/controllers/rgbresourcemanager_controller.go:104-121 | the create loop reads only the record's name and colour |
| RGBProperties.GroupVersionNotConsulted | k8s/v/assignment2_3/rgbcrd/api/v1/rgbresourcemanager_types.go:40-53 | changing Spec.Group and Spec.Version changes neither the outcome nor the calls nor the objects of a pass |
| RGBIntended.Surplus | k8s/v/assignment2_3/rgbcrd/controllers/rgbresourcemanager_controller.go:123 | the intended delete count leaves exactly Spec.Count children, or none when Spec.Count is negative |
| RGBIntended.IntendedPassCreates | k8s/v/assignment2_3/rgbcrd/controllers/rgbresourcemanager_controller.go:100-121 | with too few children the corrected pass is the create loop into the record's own namespace |
| RGBIntended.IntendedPassDeletes | k8s/v/assignment2_3/rgbcrd/controllers/rgbresourcemanager_controller.go:122-134 | with too many children the corrected pass deletes the first count - Spec.Count listed ones |
| RGBIntended.IntendedAtTargetPersistsReady | k8s/v/assignment2_3/rgbcrd/controllers/rgbresourcemanager_controller.go:90-99 | at target, the corrected pass persists Ready by exactly one status update, for both kinds |
| RGBIntended.IntendedCreatesConverge | k8s/v/assignment2_3/rgbcrd/controllers/rgbresourcemanager_controller.go:100-121 | the corrected create pass converges in any namespace: the next List sees exactly Spec.Count children |
| RGBIntended.IntendedCreateLoopConverges | k8s/v/assignment2_3/rgbcrd/controllers/rgbresourcemanager_controller.go:104-121 | the corrected create loop into the record's namespace brings the observed count to Spec.Count |
| RGBIntended.IntendedDeletesConverge | k8s/v/assignment2_3/rgbcrd/controllers/rgbresourcemanager_controller.go:122-134 | without faults, the corrected delete pass succeeds and the next List sees exactly Spec.Count children |
| RGBIntended.IntendedDeleteLoopConverges | k8s/v/assignment2_3/rgbcrd/controllers/rgbresourcemanager_controller.go:125-133 | the corrected delete loop removes exactly the first count - Spec.Count listed children |
| ReplicaSetController.GetStep | k8s/v/assignment1/controller-runtime/main.go:60 | a Get succeeds exactly when not faulted and the ReplicaSet exists; otherwise it returns the fault or NotFound |
| ReplicaSetController.SelectPods | k8s/v/assignment1/controller-runtime/main.go:68 | the pods listed are exactly those of the namespace whose labels match the selector |
| ReplicaSetController.ListStep | k8s/v/assignment1/controller-runtime/main.go:68 | a List succeeds exactly when not faulted, with the selected pods |
| ReplicaSetController.UpdateStep | k8s/v/assignment1/controller-runtime/main.go:81 | an Update of an existing ReplicaSet replaces it; pods are untouched |
| ReplicaSetController.DeleteStep | k8s/v/assignment1/controller-runtime/main.go:90 | a Delete of an existing ReplicaSet removes it; pods are untouched |
| ReplicaSetController.Cluster.constructor | k8s/v/assignment1/controller-runtime/main.go:57 | the client starts on the given cluster state |
| ReplicaSetController.Cluster.Get | k8s/v/assignment1/controller-runtime/main.go:60 | the client's Get changes the state and answers as GetStep |
| ReplicaSetController.Cluster.List | k8s/v/assignment1/controller-runtime/main.go:68 | the client's List changes the state and answers as ListStep |
| ReplicaSetController.Cluster.Update | k8s/v/assignment1/controller-runtime/main.go:81 | the client's Update changes the state and answers as UpdateStep |
| ReplicaSetController.Cluster.Delete | k8s/v/assignment1/controller-runtime/main.go:90 | the client's Delete changes the state and answers as DeleteStep |
| ReplicaSetController.WithPodCount | k8s/v/assignment1/controller-runtime/main.go:77-80 | after the label step `pod-count` reads back as the count, and every other label is as before, with a nil map treated as empty |
| ReplicaSetController.ReplicaSetReconciler.constructor | k8s/v/assignment1/controller-runtime/main.go:57 | the reconciler works on the client it is given |
| ReplicaSetController.ReplicaSetReconciler.Reconcile | k8s/v/assignment1/controller-runtime/main.go:57-98 | the imperative pass, which sets `pod-count` on its copy of the fetched ReplicaSet, returns the error and leaves the state that `Pass` specifies |
| ReplicaSetController.GetErrorReturned | k8s/v/assignment1/controller-runtime/main.go:59-65 | any Get error, NotFound included, is returned with nothing else issued |
| ReplicaSetController.ListErrorBeforeUpdate | k8s/v/assignment1/controller-runtime/main.go:67-72 | pods are listed by the request's namespace and the template labels; a List error is returned before any Update |
| ReplicaSetController.UpdateSendsPodCount | k8s/v/assignment1/controller-runtime/main.go:76-81 | the Update sends the fetched ReplicaSet with only its labels changed, and its `pod-count` label reads back as the number of pods listed |
| ReplicaSetController.UpdateFailureSkipsDelete | k8s/v/assignment1/controller-runtime/main.go:81-86 | an Update error is returned and no Delete is issued |
| ReplicaSetController.DeleteIffMarked | k8s/v/assignment1/controller-runtime/main.go:87-97 | after a successful Update, a Delete is issued exactly when `delete` is `true`; a Delete error is returned, and otherwise the pass succeeds |
| ReplicaSetController.SuccessfulPassOutcome | k8s/v/assignment1/controller-runtime/main.go:57-98 | a pass without error leaves the ReplicaSet either deleted (when marked) or stored with the current pod count |
| RGBLabeller.SelectPods | k8s/v/assignment1/clientgo/pods/rgb.go:14-16 | the pods listed are exactly those in the scope of the namespace whose labels match the selector; the scope of `""` (NamespaceAll) is every namespace |
| RGBLabeller.SelectPodsAppend | k8s/v/assignment1/clientgo/pods/rgb.go:14-16 | the selection keeps list order: the selection from two lists in a row is the two selections in a row |
| RGBLabeller.ListStep | k8s/v/assignment1/clientgo/pods/rgb.go:14-19 | a List succeeds exactly when not faulted |
| RGBLabeller.Replace | k8s/v/assignment1/clientgo/pods/rgb.go:29 | an Update replaces the stored pod of the same identity and nothing else |
| RGBLabeller.Refusal | k8s/v/assignment1/clientgo/pods/rgb.go:29 | an Update is refused exactly when it is faulted, names no namespace (NamespaceAll), or names another namespace than the pod's; a fault gives its own error |
| RGBLabeller.UpdateStep | k8s/v/assignment1/clientgo/pods/rgb.go:29-32 | an Update through `Pods(namespace)` succeeds exactly when not refused and then replaces the pod; a refusal's error is returned and nothing is stored |
| RGBLabeller.PodClient.constructor | k8s/v/assignment1/clientgo/pods/rgb.go:11 | the clientset starts on the given state |
| RGBLabeller.PodClient.List | k8s/v/assignment1/clientgo/pods/rgb.go:14-16 | the clientset's List changes the state and answers as ListStep |
| RGBLabeller.PodClient.Update | k8s/v/assignment1/clientgo/pods/rgb.go:29 | the clientset's `Pods(namespace).Update` changes the state and answers as UpdateStep |
| RGBLabeller.Relabel | k8s/v/assignment1/clientgo/pods/rgb.go:26 | the `color` label gets the colour and every other label and the pod's identity are unchanged |
| RGBLabeller.UpdateRGB | k8s/v/assignment1/clientgo/pods/rgb.go:11-42 | the imperative UpdateRGB, with counter reset at `i == 3`, has the outcome and effect of `Relabelling` |
| RGBLabeller.LabelPods | k8s/v/assignment1/clientgo/pods/rgb.go:22-40 | the loop over the listed pods has the outcome and effect of `LabelLoop` from counter 0 |
| RGBLabeller.CounterAsWritten | k8s/v/assignment1/clientgo/pods/rgb.go:35-39 | as written, the counter at pod k is k for the first four pods: it reaches 3 before it can reset |
| RGBLabeller.CounterIntended | k8s/v/assignment1/clientgo/pods/rgb.go:35-39 | with the reset at 2 the counter at pod k is k mod 3 |
| RGBLabeller.SentFrom | k8s/v/assignment1/clientgo/pods/rgb.go:26-29 | one relabelled pod is sent per pod visited |
| RGBLabeller.UpdateCalls | k8s/v/assignment1/clientgo/pods/rgb.go:29 | one Update is logged per pod sent |
| RGBLabeller.LoopRun | k8s/v/assignment1/clientgo/pods/rgb.go:23-40 | every loop run labels some prefix of the pods, one Update each in list order, and then completes, panics on a refused Update, or panics on a nil label map or a palette index out of range |
| RGBLabeller.ListFailurePanics | k8s/v/assignment1/clientgo/pods/rgb.go:14-19 | a List error panics before any Update |
| RGBLabeller.AsWrittenCompletionNeedsAtMostThree | k8s/v/assignment1/clientgo/pods/rgb.go:21-39 | as written, the loop can complete only on at most three pods |
| RGBLabeller.AsWrittenCompletesIffAtMostThree | k8s/v/assignment1/clientgo/pods/rgb.go:21-39 | as written, without faults and with every pod in the named namespace: the loop completes exactly when there are at most three pods, pod k getting `colors[k]`; on a fourth pod it panics on index 3 after updating exactly the first three |
| RGBLabeller.UpdateFailureLeavesPrefix | k8s/v/assignment1/clientgo/pods/rgb.go:29-32 | an Update failure panics with exactly the earlier pods relabelled |
| RGBLabeller.Cycled | k8s/v/assignment1/clientgo/pods/rgb.go:21-26 | the intended relabelling keeps one pod per pod |
| RGBLabeller.IntendedLabelable | k8s/v/assignment1/clientgo/pods/rgb.go:35-39 | with the reset at 2 the counter always indexes the palette |
| RGBLabeller.IntendedSent | k8s/v/assignment1/clientgo/pods/rgb.go:26-29 | with the reset at 2 pod k is sent with colour `colors[k mod 3]` |
| RGBLabeller.IntendedLabelsEveryPod | k8s/v/assignment1/clientgo/pods/rgb.go:23-40 | with the reset at 2, without faults and with every pod in the named namespace, every pod is labelled and the run completes |
| RGBLabeller.NamespaceAllListsEveryNamespace | k8s/v/assignment1/clientgo/pods/rgb.go:14-16 | under `""` the List selects by labels alone, across every namespace |
| RGBLabeller.ListedAreAccepted | k8s/v/assignment1/clientgo/pods/rgb.go:14-29 | with a named namespace, every listed pod lies in it, so the server accepts its Update |
| RGBLabeller.NamespaceAllPanicsAtFirstPod | k8s/v/assignment1/clientgo/pods/rgb.go:14-32 | under `""` a run that lists any pod panics at the first one, on its nil label map or on its refused Update, and relabels no pod |
| DataStore.ReadFile | inventory/src/app/datastore.go:71-74 | reading succeeds exactly when a readable regular file is at the path; a directory there gives EISDIR, which is not a not-exist error; the error is a not-exist one exactly when nothing is at the path |
| DataStore.ReadDir | inventory/src/app/datastore.go:161-164 | reading succeeds exactly when a readable directory is at the path; a regular file there gives ENOTDIR, which is not a not-exist error; the error is a not-exist one exactly when nothing is at the path |
| DataStore.EnabledAppsOnDisk | inventory/src/app/datastore.go:70-78 | loading succeeds exactly when `enabled-app-list.yaml` reads and decodes as an enabled-app list |
| DataStore.AppEnvOnDisk | inventory/src/app/datastore.go:117-125 | loading succeeds exactly when `<dataDir>/<app>/<env>.yaml` reads and decodes as environment data |
| DataStore.Ext | inventory/src/app/datastore.go:172 | filepath.Ext: a suffix of the name that is empty or a dot followed by no dot and no separator |
| DataStore.ExtOfSuffix | inventory/src/app/datastore.go:172 | a name that ends in a dot-suffix without further dots has exactly that extension |
| DataStore.EnvName | inventory/src/app/datastore.go:167-175 | an entry contributes one name exactly when it is a file ending in .yaml or .yml |
| DataStore.EnvNameStripsExtension | inventory/src/app/datastore.go:171-172 | the name contributed is the file name without its .yaml or .yml |
| DataStore.EnvNames | inventory/src/app/datastore.go:165-176 | a listing contributes at most one name per entry |
| DataStore.CollectEnvNames | inventory/src/app/datastore.go:165-176 | the append loop, with its `continue`, returns exactly `EnvNames` of the listing |
| DataStore.EnvNamesMembers | inventory/src/app/datastore.go:165-176 | a name is listed exactly when some YAML file entry contributes it |
| DataStore.EnvNamesAppend | inventory/src/app/datastore.go:165-176 | directory order is kept: the names of a concatenated listing are the names of its parts, concatenated |
| DataStore.LoadEnabledAppsStep | inventory/src/app/datastore.go:55-82 | once loaded the cached list is returned with nothing changed; otherwise the disk is read and the flag is raised exactly on success; the other caches are untouched |
| DataStore.LoadAppEnvStep | inventory/src/app/datastore.go:89-128 | a cached (app, env) is returned as is; otherwise the file is read; the app's inner map exists afterwards; nothing else changes |
| DataStore.ListEnvsStep | inventory/src/app/datastore.go:134-180 | a cached list is returned as is; otherwise the directory's env names or the read error are returned, and only a success is cached |
| DataStore.UserListStep | inventory/src/app/datastore.go:182-195 | GetUserList changes the cache only as its load does |
| DataStore.DataStore.constructor | inventory/src/app/datastore.go:32-38 | a new store has empty caches and the loaded flag down |
| DataStore.DataStore.LoadEnabledApps | inventory/src/app/datastore.go:55-82 | the method updates the fields and answers as LoadEnabledAppsStep |
| DataStore.DataStore.LoadAppEnv | inventory/src/app/datastore.go:89-128 | the method updates the nested map in place and answers as LoadAppEnvStep |
| DataStore.DataStore.ListEnvs | inventory/src/app/datastore.go:134-180 | the method updates the list cache and answers as ListEnvsStep |
| DataStore.DataStore.GetUserList | inventory/src/app/datastore.go:182-195 | the method answers as UserListStep |
| DataStore.Apply | inventory/src/app/datastore.go:17-30 | every call keeps the cache consistent: a loaded flag always comes with a list |
| DataStore.ApplyAll | inventory/src/app/datastore.go:17-30 | any sequence of calls keeps the cache consistent |
| DataStore.ApplyExtends | inventory/src/app/datastore.go:79-81 | no call forgets or changes anything already cached |
| DataStore.ApplyAllExtends | inventory/src/app/datastore.go:126 | no sequence of calls forgets or changes anything already cached |
| DataStore.ListEnvsIsMemoised | inventory/src/app/datastore.go:140-156 | once listEnvs succeeds, every later listEnvs of that app returns the same list, whatever calls came between and however the disk changed |
| DataStore.FreshStoreReadsDirectory | inventory/src/app/datastore.go:159-178 | a fresh store's first listEnvs is the listing of the disk it is given |
| DataStore.MissingDirectoryCachesNothing | inventory/src/app/datastore.go:161-164 | listEnvs with nothing at the directory path returns a not-exist error and caches nothing |
| DataStore.FileForDirectoryCachesNothing | inventory/src/app/datastore.go:161-164 | listEnvs with a regular file at the directory path returns ENOTDIR, not a not-exist error, and caches nothing |
| DataStore.FailedAppEnvCachesNothing | inventory/src/app/datastore.go:107-121 | a failed loadAppEnv caches nothing for that env, though the app's inner map now exists |
| DataStore.LoadAppEnvIsMemoised | inventory/src/app/datastore.go:95-99 | after a successful loadAppEnv the same (app, env) returns the same data from a changed disk |
| DataStore.FailedEnabledAppsLoadRetries | inventory/src/app/datastore.go:71-78 | after a failed loadEnabledApps the flag stays down and the next call reads the disk again |
| DataStore.UserListOutcomes | inventory/src/app/datastore.go:182-195 | the four outcomes: the users of a listed app, "<app> not found", "Cache load failed" on a not-exist error, and a nil dereference on any other load error |
| DataStore.MalformedListDereferencesNil | inventory/src/app/datastore.go:185-190 | an enabled-app list that does not decode, or that is a directory, makes GetUserList dereference nil |
| DataStore.IntendedUsersFrom | inventory/src/app/datastore.go:185-188 | the corrected decision never dereferences nil, returns every load error, and otherwise agrees with the code |
| EnvSlices.DrainedTooFar | inventory/src/app/helpers_test.go:13-16 | a string whose count is used up before its next occurrence occurs more often in b than in a |
| EnvSlices.Tally | inventory/src/app/helpers_test.go:8-11 | the first loop counts each string's occurrences in a |
| EnvSlices.Drain | inventory/src/app/helpers_test.go:12-18 | the second loop succeeds exactly when b's multiset is contained in a's, leaving count(a) - count(b) per string |
| EnvSlices.EnvSlicesEqualUnordered | inventory/src/app/helpers_test.go:4-25 | true exactly when the two lists are permutations of each other; false for unequal lengths |
| Auth.Token | inventory/src/app/auth.go:22 | the token is what follows "Bearer ", and it is never empty |
| Auth.NextCalledIffTokenMatches | inventory/src/app/auth.go:11-34 | next is called exactly when AUTH_TOKEN is set and the header is "Bearer " followed by it; every other request gets 401 |
| Auth.RejectionMessages | inventory/src/app/auth.go:15-30 | the message names the first check failed: missing header, invalid header, server not configured, invalid token |
| Auth.BarePrefixRejected | inventory/src/app/auth.go:18-21 | "Bearer " alone is an invalid header, even when no token is configured |
| Backup.Basename | bkp/backup-proc.py:91 | os.path.basename returns a part of the path with no '/' |
| Backup.BasenameOfJoin | bkp/backup-proc.py:34 | the basename of a joined path is the joined name |
| Backup.NewFolderName | bkp/backup-proc.py:34 | the new folder is named `backup_<timestamp>` |
| Backup.NewFolderNameNoSlash | bkp/backup-proc.py:33-34 | a timestamp without '/' gives a folder name without one |
| Backup.NewFolderIsCandidate | bkp/backup-proc.py:34-37 | the folder just created is a cleanup candidate, so it counts toward the limit |
| Backup.CandidatesSelect | bkp/backup-proc.py:62-63 | the candidates are exactly the directories whose name starts with `backup_`, each as often as in the listing |
| Backup.Insert | bkp/backup-proc.py:62-65 | inserting keeps every element and adds one |
| Backup.InsertSorted | bkp/backup-proc.py:62-65 | inserting into an mtime-sorted list keeps it sorted |
| Backup.SortByMtime | bkp/backup-proc.py:62-65 | sorting by mtime is a permutation |
| Backup.SortByMtimeSorted | bkp/backup-proc.py:62-65 | sorting by mtime yields ascending mtimes |
| Backup.ToDelete | bkp/backup-proc.py:67-71 | nothing is chosen within the limit; otherwise the first len - max of the sorted candidates are chosen |
| Backup.OldestAreChosen | bkp/backup-proc.py:62-71 | chosen and kept together are the candidates; max are kept when over the limit; no chosen folder is newer than a kept one |
| Backup.WithinLimitDeletesNothing | bkp/backup-proc.py:67-69 | at most max candidates: `[]` is returned and nothing is removed |
| Backup.DeletedAreChosen | bkp/backup-proc.py:74-82 | every path reported deleted is a chosen folder whose removal succeeded |
| Backup.DeletedComplete | bkp/backup-proc.py:74-82 | every chosen folder whose removal succeeds is reported deleted |
| Backup.Removed | bkp/backup-proc.py:74-82 | the chosen folders whose removal succeeds, at most one per chosen folder |
| Backup.RemovedMembers | bkp/backup-proc.py:74-82 | a folder is removed exactly when it is chosen and its rmtree does not raise |
| Backup.DeletedArePathsOfRemoved | bkp/backup-proc.py:74-82 | the reported list holds the paths of the removed folders, one each, in loop order |
| Backup.RemovedSorted | bkp/backup-proc.py:71-76 | skipping failed removals keeps a sorted choice sorted |
| Backup.ChosenSorted | bkp/backup-proc.py:62-71 | the folders chosen for deletion are sorted by mtime, oldest first |
| Backup.CleanupDeletesOldestFirst | bkp/backup-proc.py:60-82 | cleanup reports deleted exactly the chosen folders whose removal succeeds, each once, oldest first |
| Backup.RemovedAreGone | bkp/backup-proc.py:74-82 | a folder removed successfully is gone from the listing afterwards |
| Backup.OthersRemain | bkp/backup-proc.py:74-82 | every other entry, including chosen folders whose removal failed, survives the loop |
| Backup.Host.constructor | bkp/backup-proc.py:101 | the host starts in the given state |
| Backup.Host.RemoveTree | bkp/backup-proc.py:76 | rmtree either removes the folder or raises, leaving everything unchanged |
| Backup.Host.CleanupOldBackups | bkp/backup-proc.py:60-82 | the deletion loop returns the paths removed and leaves the listing that `CleanupResult` specifies; files and trace are unchanged |
| Backup.DeletedLinesAt | bkp/backup-proc.py:92-93 | the k-th DELETED line names the k-th deleted folder |
| Backup.ChangelogLines | bkp/backup-proc.py:91-93 | the changelog gets the CREATED line first, then one DELETED line per deleted folder |
| Backup.ChangelogResult | bkp/backup-proc.py:89-98 | the changelog write fails exactly when the file cannot be opened, and otherwise changes no listing or step |
| Backup.Host.UpdateChangelog | bkp/backup-proc.py:85-98 | the writing loop appends the lines and reports success as `ChangelogResult` specifies |
| Backup.ChangelogAppends | bkp/backup-proc.py:90-93 | an openable changelog gets exactly the lines appended, and no other file changes |
| Backup.Finish | bkp/backup-proc.py:124-129 | cleanup then changelog, reached only once backup.log took the first line; exit 0 exactly when the changelog (at BACKUP_DIR, not the argument) can be opened, else 1 |
| Backup.FinishWritesChangelog | bkp/backup-proc.py:124-129 | the last two steps append the lines for the folders actually deleted |
| Backup.Host.RunBackup | bkp/backup-proc.py:101-131 | the imperative main exits and leaves the host as `Run` specifies |
| Backup.StepsInOrder | bkp/backup-proc.py:101-131 | the steps run in the order create, copy, cleanup, changelog; exit 0 exactly when all four ran and both backup.log and the changelog could be appended to; every failure exits 1 |
| Backup.UsageExits | bkp/backup-proc.py:103-105 | fewer than three arguments exits 1 before anything happens |
| Backup.EarlyFailureSkipsCleanup | bkp/backup-proc.py:116-122 | a backup.log that cannot be appended, a failed folder creation (a non-directory with the folder's name included) or a failed copy exits 1 with no cleanup and no changelog |
| Backup.LogFailureStopsFirst | bkp/backup-proc.py:22-28 | when backup.log cannot be appended, the unguarded log() call at line 113 raises: exit 1 before the first step, host unchanged |
| Backup.ObstructedFolderExits | bkp/backup-proc.py:36-42 | a non-directory already named `backup_<stamp>` makes makedirs raise: exit 1 after the first step started, listing unchanged |
| Backup.RunFinishes | bkp/backup-proc.py:111-125 | a run that passes the copy is the last two steps on the host with the new folder |
| Backup.ChangelogWritten | bkp/backup-proc.py:12-13 | a successful run appended, to the changelog under BACKUP_DIR, the CREATED line of the new folder and the DELETED lines of the removed folders |

## Left out

- Logging and printing in the Go programs (`log.Info`, `log.Println`, `fmt.Println`, `fmt.Printf`) are output only and are not modelled. The same holds for `print` in the backup script.
- Backup.Run: the backup script's `log()` appends to `BACKUP_DIR/backup.log` and raises when the append fails. The model keeps only whether that file can be appended (its path in `appendFails`), as one fact for the whole run. A log file that stops accepting appends part-way through a run is not modelled. Such a file would make one of the log() calls at lines 38/41, 48, 53/56, 68, 77/80, 94/97 or 131 raise, and the script exit 1.
- Backup.StepsInOrder: for the same reason, a run whose line-113 log succeeded is never ended by a later log() failure, including the one at line 131 after all four steps.
- Backup.Finish: it requires backup.log to be appendable, which is how Run reaches it. The log() calls at lines 68, 77/80, 94/97 and 131 therefore cannot fail inside it.
- Backup.ChangelogWritten: the timestamped lines log() appends to backup.log are not modelled. `files` never changes at that path, so "no other file changes" leaves backup.log out.
- The `sync.RWMutex` double-checked locking of `DataStore` is concurrency. The model is sequential, and the second cache check under the write lock is the same sequential check.
- `filepath.Join` and `os.path.join` are modelled by path-component sequences and a plain join. Path cleaning (`..`, repeated `/`) is not modelled.
- Backup.DeletedFrom: `cleanup_old_backups` reports `str(old_folder)`, where `old_folder` is a pathlib `Path(backup_dir) / name` (backup-proc.py:63, 78). pathlib normalises its text: a `backup_dir` of `.` gives `name`, and `./b` gives `b/name`. The model uses the `os.path.join` form for these paths too. The changelog lines are not affected, because both forms have the same basename.
- YAML decoding is abstract. A file holds an already-decoded document or a malformed one.
- `uuid.New()` is an oracle `Env.uuid`. Its freshness is a hypothesis of the convergence lemmas, because the code does not guarantee it.
- `ctrl.SetControllerReference` is an oracle `Env.ownerRef` that fails or succeeds for the whole pass; it is free, not derived from the namespaces. In controller-runtime it refuses an owner in another namespace than the child, so for a record outside namespace "default" (every child is built there, rgbresourcemanager_controller.go:107 and :161) it always fails; `OwnerRefusalCreatesNothing` states that pass. The runs in which the oracle succeeds for such a record cannot happen in the program. controller-runtime is not part of this model. Owner references themselves and garbage collection are not modelled.
- API-server behaviour beyond existence checks is not modelled: resourceVersion conflicts, admission and watches. Their failures are the fault oracle's entries.
- `SetupWithManager`, the manager, the kubeconfig, the flag parsing and the client-go wrappers are not part of this model.
- RGBController.Pass: `int(Spec.Count)` is an unbounded integer. 32-bit overflow cannot arise, because the count is admitted only between 2 and 5.
- RGBLabeller.UpdateStep: an Update fails through the fault oracle, or when the server refuses its namespace (`Refusal`). It does not fail for a pod that has disappeared since the List, nor on a resource-version conflict.
- Backup.Run: `subprocess.run` of the copy script is reduced to whether the script exists and whether it succeeds.
- Backup.Run: the clock is an input. That covers the folder timestamp, the changelog date and the new folder's mtime.
- Backup.Run: the timestamp is required to contain no '/', which `strftime('%Y%m%d_%H%M%S')` guarantees.
- Backup.Run: a failing `os.makedirs(backup_dir)` raises and ends the script. The model uses exit 1 for this.
- RGBLabeller.SelectPods: the selector is modelled as an equality map that a pod's labels must contain. Set-based and existence requirements (`in`, `notin`, `!key`) in `LabelSelector` are not modelled. A selector string that does not parse is one more List failure, given by the fault oracle.
- DataStore.ReadFile: a path whose parent is a regular file (ENOTDIR from os.ReadFile) is treated as nothing at the path. Paths are compared component by component, not as files nested in directories.
- Backup.SortByMtime: does not state that the sort is stable for equal mtimes, as Python's `sorted` is. Only the order by mtime and the permutation are proved.
- EnvSlices.EnvSlicesEqualUnordered: the third loop over the map's values is modelled. Its result is proved true, because every count is zero by then.

## Findings

| source | as written | input that shows it | evidently intended | confidence | as-written member | corrected member |
|---|---|---|---|---|---|---|
| k8s/v/assignment2_3/rgbcrd/controllers/rgbresourcemanager_controller.go:123 | `newCntToDelete := Spec.Count - count` is negative in the surplus branch, so the delete loop never runs | a Pod record with Spec.Count 2 and 3 listed children: the pass returns nil with all 3 in place | delete `count - Spec.Count` children | not executed | RGBProperties.SurplusIsNeverDeleted | RGBIntended.IntendedDeletesConverge |
| k8s/v/assignment2_3/rgbcrd/controllers/rgbresourcemanager_controller.go:90-94 | the Pod branch at target sets Ready on the in-memory copy and returns; the markRGBReady call at line 99 is unreachable | a Pod record with Spec.Count 2 and 2 listed pods: no status update is issued | persist Ready through markRGBReady, as the Deployment branch does | not executed | RGBProperties.PodAtTargetMarksOnlyHeldCopy | RGBIntended.IntendedAtTargetPersistsReady |
| k8s/v/assignment2_3/rgbcrd/controllers/rgbresourcemanager_controller.go:107 | children are created in namespace "default" but listed in `req.Namespace` | a record in namespace "team" with Spec.Count 2: SetControllerReference refuses the owner in "team" for a child in "default", so every pass returns that error right after the List, creates nothing and observes the same 0 children (RGBProperties.OwnerRefusalCreatesNothing) | create children in the record's own namespace | not executed | RGBProperties.ForeignNamespaceNeverConverges | RGBIntended.IntendedCreatesConverge |
| k8s/v/assignment1/clientgo/pods/rgb.go:35 | the counter resets only at `i == 3`, after `colors[3]` has already been indexed | four pods with label maps: the fourth indexes `colors[3]` and panics | reset at 2, so pod k gets `colors[k mod 3]` | not executed | RGBLabeller.AsWrittenCompletesIffAtMostThree | RGBLabeller.IntendedLabelsEveryPod |
| inventory/src/app/datastore.go:186-190 | only a not-exist load error is returned; any other error falls through to `*apps` with `apps` nil | an `enabled-app-list.yaml` that does not decode: GetUserList dereferences nil | return every load error | not executed | DataStore.MalformedListDereferencesNil | DataStore.IntendedUsersFrom |
