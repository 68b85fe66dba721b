// Types of the multicluster API group as the Gateway reconciler uses them:
// Gateways of the member cluster, the ClusterInfo they are folded into, and the
// ResourceExport that carries a ClusterInfo to the leader cluster.

module MulticlusterApi {

  datatype Option<T> = None | Some(value: T)

  /** A Gateway of the member cluster. Its creation timestamp is not modelled. */
  datatype Gateway = Gateway(namespace: string, name: string, gatewayIP: string, internalIP: string)

  /** The part of a Gateway that is published to the leader cluster. */
  datatype GatewayInfo = GatewayInfo(gatewayIP: string)

  datatype ClusterInfo = ClusterInfo(clusterID: string, serviceCIDR: string, gatewayInfos: seq<GatewayInfo>)

  /** `name` and `namespace` of the spec name the exporting cluster and its namespace. */
  datatype ResourceExportSpec = ResourceExportSpec(name: string, namespace: string, kind: string, clusterInfo: ClusterInfo)

  /** A ResourceExport object in the leader namespace; `deleting` stands for a set deletion timestamp. */
  datatype ResourceExport = ResourceExport(name: string, namespace: string, spec: ResourceExportSpec, deleting: bool)

  const ClusterInfoKind: string := "ClusterInfo"

  /** The group-qualified resource name that API errors about ResourceExports carry. */
  const ResourceExportResource: string := "resourceexports.multicluster.crd.antrea.io"

  /** Failures the remote API server reports. */
  datatype ApiError = AlreadyExists(name: string) | NotFound(name: string)

  /** Failures a reconciliation reports to its caller. */
  datatype ReconcileError = Api(cause: ApiError) | ServiceCIDRUnresolvable(reason: string)

  datatype Result<T> = Ok(value: T) | Err(error: ReconcileError)

  /** A successful mutation of the remote store. */
  datatype Write = Created(name: string) | Updated(name: string) | Deleted(name: string)

  /** The text of an API error, in the form the API machinery formats it: the resource, then the quoted name. */
  function ApiErrorMessage(e: ApiError): (m: string)
    ensures |m| > |ResourceExportResource| + 2 + |e.name|
    ensures m[..|ResourceExportResource| + 2] == ResourceExportResource + " \""
    ensures m[|ResourceExportResource| + 2..|ResourceExportResource| + 2 + |e.name|] == e.name
    ensures m[|ResourceExportResource| + 2 + |e.name|] == '"'
  {
    match e
    case AlreadyExists(n) => ResourceExportResource + " \"" + n + "\" already exists"
    case NotFound(n) => ResourceExportResource + " \"" + n + "\" not found"
  }

  /** What `err.Error()` returns for a reconciliation error: an API error's text, or the discovery failure's reason verbatim. */
  function ErrorMessage(e: ReconcileError): (m: string)
    ensures e.Api? ==> m == ApiErrorMessage(e.cause)
    ensures e.ServiceCIDRUnresolvable? ==> m == e.reason
  {
    match e
    case Api(cause) => ApiErrorMessage(cause)
    case ServiceCIDRUnresolvable(reason) => reason
  }

  /** The text of an AlreadyExists error ends in `s` ("exists"), that of a NotFound error in `d` ("found"). */
  lemma ApiErrorMessageLastChar(e: ApiError)
    ensures |ApiErrorMessage(e)| > 0
    ensures ApiErrorMessage(e)[|ApiErrorMessage(e)| - 1] == if e.AlreadyExists? then 's' else 'd'
  {
    var suffix := if e.AlreadyExists? then "\" already exists" else "\" not found";
    assert ApiErrorMessage(e) == (ResourceExportResource + " \"" + e.name) + suffix;
  }

  /** Different API errors never read the same. */
  lemma ApiErrorMessageInjective(a: ApiError, b: ApiError)
    requires ApiErrorMessage(a) == ApiErrorMessage(b)
    ensures a == b
  {
    ApiErrorMessageLastChar(a);
    ApiErrorMessageLastChar(b);
    assert a.AlreadyExists? == b.AlreadyExists?;
    var ma, mb := ApiErrorMessage(a), ApiErrorMessage(b);
    var p := |ResourceExportResource| + 2;
    assert |a.name| == |b.name|;
    assert a.name == ma[p..p + |a.name|];
    assert b.name == mb[p..p + |b.name|];
  }

  /** Lifts the outcome of a remote call into the reconciler's error type. */
  function AsReconcileError(e: Option<ApiError>): (r: Option<ReconcileError>)
    ensures r.None? <==> e.None?
    ensures e.Some? ==> r == Some(Api(e.value))
  {
    match e
    case None => None
    case Some(cause) => Some(Api(cause))
  }

  /** Every object of the store is filed under its own name and lives in `namespace`. */
  predicate WellKeyed(store: map<string, ResourceExport>, namespace: string)
  {
    forall k :: k in store ==> store[k].name == k && store[k].namespace == namespace
  }
}
