# Gateway → ClusterInfo export and the antctl token transform, in Dafny

This project models two pieces of Antrea.

**The Gateway reconciler of the multicluster member controller.** Each member
cluster has Gateway objects in its own namespace. The reconciler folds them
into one ClusterInfo ResourceExport in the leader cluster's namespace, named
`<clusterID>-clusterinfo`. The export carries the kind `ClusterInfo`, the
cluster ID, the Service CIDR and one `GatewayInfo{GatewayIP}` per Gateway.
One reconciliation re-lists the Gateways and then does one of these:

- no Gateways left: it deletes the export, and a delete that finds nothing counts as success;
- otherwise it resolves the Service CIDR (the configured one, or a discovered one) and fails if that cannot be done;
- no export yet: it creates one;
- the export is being deleted: the create is refused with `resourceexports.multicluster.crd.antrea.io "<name>" already exists`;
- a live export with a different spec: it updates the export;
- a live export with the same spec: it writes nothing.

The leader side is a class `RemoteCommonArea` in `common_area.dfy`. It
holds a map from name to ResourceExport and a log of successful writes. The
reconciler is a class `GatewayReconciler` in `gateway_controller.dfy`. It
keeps its namespace and the Service CIDR, which it caches once discovered.
`Reconcile` is proved equal to the pure function `ReconcileStep`. The lemmas
about that function state the reconciler's guarantees:

- it touches only its own export;
- it fails exactly in the two refusal cases;
- after a success the export is exactly the desired one, whatever was there before;
- a second run writes nothing;
- two successful runs over different remote histories agree.

`gateway_scenarios.dfy` restates the rows of the reconciler's test table.

**The antctl token transform** (`token_transform.dfy`). It maps Secrets to
`{Namespace, Name}` responses and gives them a two-column table layout. Go's
`interface{}` arguments become a `Value` that records its dynamic type. A
failed single-valued type assertion, which panics in Go, becomes `Panicked`.
`Transform` follows the code as written, so a non-empty list panics (see
"## Findings"). `ListTransform` is the corrected list transform.

The reconciler's own source file,
multicluster/controllers/multicluster/gateway_controller.go, is not part of
this model. Its behaviour here follows the test table in
gateway_controller_test.go. The steps of one reconciliation run in this
order:

1. re-list the Gateways of the reconciler's namespace;
2. if there are none, delete the export and stop;
3. resolve the Service CIDR;
4. read the export;
5. create, refuse, update or leave it.

## Model

| member | source | states |
|---|---|---|
| `GatewayController.ExportName` | multicluster/controllers/multicluster/gateway_controller_test.go:172 | the export name is the cluster ID followed by `-clusterinfo` |
| `GatewayController.ExportNameInjective` | multicluster/controllers/multicluster/gateway_controller_test.go:169-173 | the export name depends only on the cluster ID, and distinct clusters get distinct names |
| `GatewayScenarios.ClusterAExportName` | multicluster/controllers/multicluster/gateway_controller_test.go:54-58 | cluster `cluster-a` exports under `cluster-a-clusterinfo` |
| `GatewayController.ListGateways` | multicluster/controllers/multicluster/gateway_controller_test.go:144-150 | the re-listed Gateways are exactly those of the local store in the reconciler's namespace |
| `GatewayController.ExportedInfos` | multicluster/controllers/multicluster/gateway_controller_test.go:63-71 | one GatewayInfo per Gateway, in order, carrying that Gateway's GatewayIP |
| `GatewayController.InternalIPNotExported` | multicluster/controllers/multicluster/gateway_controller_test.go:44-52 | only GatewayIP is exported: Gateways that agree on their GatewayIPs export the same infos, whatever their InternalIP |
| `GatewayController.ResolveServiceCIDR` | multicluster/controllers/multicluster/gateway_controller_test.go:189-194 | a configured CIDR is used verbatim; an empty one is discovered; resolution fails exactly when none is configured and discovery fails, with the discovery's reason |
| `GatewayController.GatewayReconciler.constructor` | multicluster/controllers/multicluster/gateway_controller_test.go:159 | a reconciler for a namespace with a configured Service CIDR |
| `GatewayController.GatewayReconciler.GetServiceCIDR` | multicluster/controllers/multicluster/gateway_controller_test.go:189-194 | caches the resolved CIDR and returns nil, or returns the resolution error and keeps the field unchanged |
| `GatewayController.GatewayReconciler.Reconcile` | multicluster/controllers/multicluster/gateway_controller_test.go:144-186 | the returned error, the new remote store, the cached CIDR and the appended writes are those of `ReconcileStep`; no object other than the own export changes |
| `GatewayController.DesiredExport` | multicluster/controllers/multicluster/gateway_controller_test.go:54-73 | the desired export is live, sits under the export name in the leader namespace, and carries kind ClusterInfo, the cluster ID, the local namespace, the CIDR and the GatewayIP of each Gateway in order |
| `GatewayController.ReconcileStep` | multicluster/controllers/multicluster/gateway_controller_test.go:160-184 | a reconciliation changes no object but the one under its export name, makes at most one write, to that name, and writes nothing when it fails; with no Gateway left the cached CIDR is unchanged, and after a success with Gateways it is the resolved one (the configured CIDR, or else the discovered one) |
| `GatewayController.StepKeepsWellKeyed` | multicluster/controllers/multicluster/gateway_controller_test.go:54-58 | every object stays filed under its own name in the leader namespace |
| `GatewayController.StepEstablishesDesired` | multicluster/controllers/multicluster/gateway_controller_test.go:174-183 | after a success the export is absent when no Gateway is left, and otherwise is exactly the desired ResourceExport for the current Gateways and for the cached CIDR, which is the one resolved from the configured CIDR and discovery |
| `GatewayController.StepExportContents` | multicluster/controllers/multicluster/gateway_controller_test.go:59-72 | a successful export is live and carries kind ClusterInfo, the cluster ID, the local namespace, the Service CIDR (the configured one when set, otherwise the discovered one), and the GatewayIP of each Gateway in order |
| `GatewayController.StepFailsIff` | multicluster/controllers/multicluster/gateway_controller_test.go:160-167 | a reconciliation fails if and only if Gateways exist and the CIDR is unresolvable or the export is being deleted; a failure writes nothing; each case has its own error |
| `GatewayController.StepIdempotent` | multicluster/controllers/multicluster/gateway_controller_test.go:160-184 | after a success, reconciling again with the same inputs succeeds, changes nothing and writes nothing |
| `GatewayController.StepConverges` | multicluster/controllers/multicluster/gateway_controller_test.go:150-159 | two successful reconciliations of the same local Gateways, from any two remote stores, leave the same export (or none) |
| `GatewayScenarios.CreateScenario` | multicluster/controllers/multicluster/gateway_controller_test.go:90-104 | one Gateway and no export: success, one create, GatewayInfos `[{10.10.10.10}]`, CIDR `10.96.0.0/12` |
| `GatewayScenarios.AlreadyExistsMessage` | multicluster/controllers/multicluster/gateway_controller_test.go:115 | the AlreadyExists error for `cluster-a-clusterinfo` reads exactly as the test expects |
| `GatewayScenarios.DeletingScenario` | multicluster/controllers/multicluster/gateway_controller_test.go:105-116 | an export being deleted: the AlreadyExists error, store unchanged, no write |
| `GatewayScenarios.UpdateScenario` | multicluster/controllers/multicluster/gateway_controller_test.go:117-132 | a live export with the old IP: success, one update, GatewayInfos `[{10.10.10.12}]` |
| `GatewayScenarios.DeleteScenario` | multicluster/controllers/multicluster/gateway_controller_test.go:133-141 | no Gateways and an export: success, one delete, and a later read finds nothing |
| `GatewayScenarios.CreateThenRerun` | multicluster/controllers/multicluster/gateway_controller_test.go:144-184 | driving `Reconcile` on a fresh area with one Gateway, twice: both passes succeed, the only write is the first pass's create, and a read returns GatewayInfos `[{10.10.10.10}]` |
| `GatewayScenarios.ServiceCIDRScenario` | multicluster/controllers/multicluster/gateway_controller_test.go:189-194 | no configured CIDR and a failing discovery: an error whose text is the discovery's message |
| `CommonArea.RemoteCommonArea.constructor` | multicluster/controllers/multicluster/gateway_controller_test.go:151-155 | an area over a leader namespace holding the given objects, with no writes yet |
| `CommonArea.RemoteCommonArea.Get` | multicluster/controllers/multicluster/gateway_controller_test.go:174-177 | returns the stored object, or NotFound exactly when the name is absent |
| `CommonArea.RemoteCommonArea.Create` | multicluster/controllers/multicluster/gateway_controller_test.go:151-155 | stores the object and logs the write, or reports AlreadyExists and changes nothing when the name is taken |
| `CommonArea.RemoteCommonArea.Update` | multicluster/controllers/multicluster/gateway_controller_test.go:151-155 | replaces the stored object and logs the write, or reports NotFound and changes nothing |
| `CommonArea.RemoteCommonArea.Delete` | multicluster/controllers/multicluster/gateway_controller_test.go:151-155 | removes the object and logs the write, or reports NotFound and changes nothing |
| `MulticlusterApi.ApiErrorMessage` | multicluster/controllers/multicluster/gateway_controller_test.go:115 | an API error's text starts with the resource name, followed by a space and the object's name between double quotes |
| `MulticlusterApi.ApiErrorMessageInjective` | multicluster/controllers/multicluster/gateway_controller_test.go:115 | two API errors with the same text are the same error, with the same kind and the same name |
| `TokenTransform.ToResponse` | pkg/antctl/transform/token/transform.go:51-54 | the response carries the Secret's namespace and name |
| `TokenTransform.ObjectTransform` | pkg/antctl/transform/token/transform.go:48-55 | returns exactly for a Secret held by value, with its Namespace and Name; any other dynamic type panics with an interface conversion to Secret |
| `TokenTransform.Responses` | pkg/antctl/transform/token/transform.go:37-45 | one response per Secret, in order, each with that Secret's namespace and name |
| `TokenTransform.ListTransformAsWritten` | pkg/antctl/transform/token/transform.go:35-46 | as the code stands: a non-list panics; an empty list returns an empty result; a non-empty list panics converting `*Secret` to `Secret` |
| `TokenTransform.ListTransform` | pkg/antctl/transform/token/transform.go:35-46 | with items passed by value: a non-list panics; a list returns the in-order responses of its Secrets |
| `TokenTransform.Transform` | pkg/antctl/transform/token/transform.go:28-33 | `single` selects the object transform, which returns exactly for a Secret held by value. Otherwise it runs the list transform as written, which returns exactly for an empty list of Secrets and panics converting `*Secret` to `Secret` for any non-empty one. Any other argument panics naming its own dynamic type, including a list passed as a single object |
| `TokenTransform.GetTableHeader` | pkg/antctl/transform/token/transform.go:59-61 | the header has two columns, `NAMESPACE` and `NAME` |
| `TokenTransform.GetTableRow` | pkg/antctl/transform/token/transform.go:63-65 | a row has one cell per header column: the namespace, then the name |
| `TokenTransform.SortRows` | pkg/antctl/transform/token/transform.go:67-69 | rows are always sorted |
| `TokenTransform.TableLayoutFixed` | pkg/antctl/transform/token/transform.go:59-69 | the header is the same for every response, the row does not depend on `maxColumnLength`, and rows are always sorted |

## Left out

- The request key of a reconciliation is not a parameter. The reconciler re-lists all its Gateways, and in every case of the test table the key does not change the outcome.
- Gateway creation timestamps and the deletion timestamp's value are left out. A deletion in progress is the boolean `deleting`.
- How the Service CIDR is discovered from the cluster is left out, because that code is not part of this model. Discovery is the parameter `Discovery`, which either yields a CIDR or fails with a message. The second CIDR list passed to the reconciler's constructor is left out, because no case of the test table depends on it.
- Transient API failures (timeouts, refused connections) and read errors other than NotFound are left out. The modelled remote store always answers.
- Contexts, cancellation, concurrent reconciliations, and requeue or backoff are left out. Each reconciliation is one sequential call.
- Scheme registration, fake-client construction and the controller-manager and leader bootstrap (multicluster/cmd/multicluster-controller/leader_test.go) are left out. They are wiring, with no statable logic.
- GatewayController.ListGateways: states membership and a length bound, not that the store's order is kept. The model keeps store order, and the tests have one Gateway.
- CommonArea.RemoteCommonArea.Create: requires the object to be in the area's namespace. The model's store holds one namespace only.
- CommonArea.RemoteCommonArea.Update: requires the object to be in the area's namespace, for the same reason.
- MulticlusterApi.ApiErrorMessage: puts literal double quotes around the name, where the API machinery formats it with Go's `%q`, which would escape quotes, backslashes and non-printable characters. Object names are DNS-1123 names, which contain none of these, so the two agree on every valid name.
- The order of Service CIDR resolution and the remote read is not fixed by any test. The model resolves first, so a resolution failure wins over an export that is being deleted.
- JSON and YAML struct tags and the `common.TableOutput` conformance check are left out. They are serialisation glue.

## Findings

| source | as written | input that shows it | evidently intended | confidence | as-written member | corrected member |
|---|---|---|---|---|---|---|
| pkg/antctl/transform/token/transform.go:41 | `listTransform` passes `&item`, a `*Secret`, to `objectTransform`, which asserts the value type `Secret` at line 49 | any non-empty list, e.g. one Secret `{Namespace: "kube-system", Name: "t"}`: the assertion panics | pass `item` by value, so the result is the Secrets' responses in order | not executed | `TokenTransform.ListTransformAsWritten` | `TokenTransform.ListTransform` |
