// The Gateway reconciler of the member cluster: it folds the local Gateways
// into one ClusterInfo ResourceExport and keeps that export in the leader
// namespace in step with them.

module GatewayController {
  import opened MulticlusterApi
  import opened CommonArea

  const ExportNameSuffix: string := "-clusterinfo"

  /** The name of the ClusterInfo ResourceExport of cluster `clusterID`. */
  function ExportName(clusterID: string): (name: string)
    ensures |name| == |clusterID| + |ExportNameSuffix|
    ensures name[..|clusterID|] == clusterID
    ensures name[|clusterID|..] == ExportNameSuffix
  {
    clusterID + ExportNameSuffix
  }

  /** Distinct member clusters never export under the same name. */
  lemma ExportNameInjective(a: string, b: string)
    requires ExportName(a) == ExportName(b)
    ensures a == b
  {
    assert |a| == |b|;
    assert a == ExportName(a)[..|a|];
    assert b == ExportName(b)[..|b|];
  }

  /** The Gateways of `local` that live in `namespace`, in store order. */
  function ListGateways(local: seq<Gateway>, namespace: string): (r: seq<Gateway>)
    ensures |r| <= |local|
    ensures forall g :: g in r <==> g in local && g.namespace == namespace
  {
    if local == [] then []
    else if local[0].namespace == namespace then [local[0]] + ListGateways(local[1..], namespace)
    else ListGateways(local[1..], namespace)
  }

  /** The published form of each Gateway, one entry per Gateway and in the same order. */
  function ExportedInfos(gateways: seq<Gateway>): (infos: seq<GatewayInfo>)
    ensures |infos| == |gateways|
    ensures forall i :: 0 <= i < |gateways| ==> infos[i] == GatewayInfo(gateways[i].gatewayIP)
  {
    if gateways == [] then [] else [GatewayInfo(gateways[0].gatewayIP)] + ExportedInfos(gateways[1..])
  }

  /** Only GatewayIP is published: Gateways that differ in anything else export the same infos. */
  lemma InternalIPNotExported(a: seq<Gateway>, b: seq<Gateway>)
    requires |a| == |b|
    requires forall i :: 0 <= i < |a| ==> a[i].gatewayIP == b[i].gatewayIP
    ensures ExportedInfos(a) == ExportedInfos(b)
  {
    var ia, ib := ExportedInfos(a), ExportedInfos(b);
    assert forall i :: 0 <= i < |ia| ==> ia[i] == ib[i];
  }

  /** What cluster-level discovery of the Service CIDR yields; how it works is not modelled. */
  datatype Discovery = Discovered(cidr: string) | DiscoveryFailed(reason: string)

  /** A configured Service CIDR is used as it is; an empty one is discovered. */
  function ResolveServiceCIDR(configured: string, discovery: Discovery): (r: Result<string>)
    ensures r.Err? <==> configured == "" && discovery.DiscoveryFailed?
    ensures configured != "" ==> r == Ok(configured)
    ensures configured == "" && discovery.Discovered? ==> r == Ok(discovery.cidr)
    ensures r.Err? ==> r.error == ServiceCIDRUnresolvable(discovery.reason)
  {
    if configured != "" then Ok(configured)
    else match discovery
      case Discovered(c) => Ok(c)
      case DiscoveryFailed(reason) => Err(ServiceCIDRUnresolvable(reason))
  }

  /** The ResourceExport that the member cluster should have in the leader namespace. */
  function DesiredExport(clusterID: string, localNamespace: string, leaderNamespace: string,
                         serviceCIDR: string, gateways: seq<Gateway>): (e: ResourceExport)
    ensures e.name == ExportName(clusterID) && e.namespace == leaderNamespace && !e.deleting
    ensures e.spec.name == clusterID && e.spec.namespace == localNamespace && e.spec.kind == ClusterInfoKind
    ensures e.spec.clusterInfo.clusterID == clusterID && e.spec.clusterInfo.serviceCIDR == serviceCIDR
    ensures |e.spec.clusterInfo.gatewayInfos| == |gateways|
    ensures forall i :: 0 <= i < |gateways| ==> e.spec.clusterInfo.gatewayInfos[i].gatewayIP == gateways[i].gatewayIP
  {
    ResourceExport(ExportName(clusterID), leaderNamespace,
      ResourceExportSpec(clusterID, localNamespace, ClusterInfoKind,
        ClusterInfo(clusterID, serviceCIDR, ExportedInfos(gateways))),
      false)
  }

  /** The outcome of one reconciliation: its error, the new remote store, the writes it made and the cached Service CIDR. */
  datatype StepResult = StepResult(err: Option<ReconcileError>, store: map<string, ResourceExport>,
                                   writes: seq<Write>, serviceCIDR: string)

  /**
   * One reconciliation, as a function of the remote store and the local
   * Gateways. It touches the export of its own cluster and nothing else, makes
   * at most one write, and a failed reconciliation writes nothing.
   */
  function ReconcileStep(clusterID: string, localNamespace: string, leaderNamespace: string, serviceCIDR: string,
                         store: map<string, ResourceExport>, local: seq<Gateway>, discovery: Discovery): (s: StepResult)
    ensures forall k :: k != ExportName(clusterID) ==>
      (k in s.store <==> k in store) && (k in store ==> s.store[k] == store[k])
    ensures |s.writes| <= 1 && forall w :: w in s.writes ==> w.name == ExportName(clusterID)
    ensures s.err.Some? ==> s.store == store && s.writes == []
    ensures ListGateways(local, localNamespace) == [] ==> s.serviceCIDR == serviceCIDR
    ensures ListGateways(local, localNamespace) != [] && s.err.None? ==>
      ResolveServiceCIDR(serviceCIDR, discovery) == Ok(s.serviceCIDR)
  {
    var name := ExportName(clusterID);
    var gateways := ListGateways(local, localNamespace);
    if |gateways| == 0 then
      // A delete of an absent export is NotFound, which the reconciler ignores.
      if name in store then StepResult(None, store - {name}, [Deleted(name)], serviceCIDR)
      else StepResult(None, store, [], serviceCIDR)
    else
      match ResolveServiceCIDR(serviceCIDR, discovery)
      case Err(e) => StepResult(Some(e), store, [], serviceCIDR)
      case Ok(cidr) =>
        var desired := DesiredExport(clusterID, localNamespace, leaderNamespace, cidr, gateways);
        if name !in store then StepResult(None, store[name := desired], [Created(name)], cidr)
        else if store[name].deleting then StepResult(Some(Api(AlreadyExists(name))), store, [], cidr)
        else if store[name].spec == desired.spec then StepResult(None, store, [], cidr)
        else StepResult(None, store[name := store[name].(spec := desired.spec)], [Updated(name)], cidr)
  }

  /** A reconciliation keeps every object filed under its name in the leader namespace. */
  lemma StepKeepsWellKeyed(clusterID: string, localNamespace: string, leaderNamespace: string, serviceCIDR: string,
                           store: map<string, ResourceExport>, local: seq<Gateway>, discovery: Discovery)
    requires WellKeyed(store, leaderNamespace)
    ensures WellKeyed(ReconcileStep(clusterID, localNamespace, leaderNamespace, serviceCIDR, store, local, discovery).store,
                      leaderNamespace)
  {
  }

  /** A successful reconciliation leaves exactly the desired export behind, whatever was there before. */
  lemma StepEstablishesDesired(clusterID: string, localNamespace: string, leaderNamespace: string, serviceCIDR: string,
                               store: map<string, ResourceExport>, local: seq<Gateway>, discovery: Discovery)
    requires WellKeyed(store, leaderNamespace)
    ensures var s := ReconcileStep(clusterID, localNamespace, leaderNamespace, serviceCIDR, store, local, discovery);
      var gateways := ListGateways(local, localNamespace);
      s.err.None? ==>
        && (gateways == [] ==> ExportName(clusterID) !in s.store)
        && (gateways != [] ==>
              ExportName(clusterID) in s.store &&
              ResolveServiceCIDR(serviceCIDR, discovery) == Ok(s.serviceCIDR) &&
              s.store[ExportName(clusterID)] == DesiredExport(clusterID, localNamespace, leaderNamespace, s.serviceCIDR, gateways))
  {
    var name := ExportName(clusterID);
    var gateways := ListGateways(local, localNamespace);
    if gateways != [] && name in store {
      assert store[name].name == name && store[name].namespace == leaderNamespace;
    }
  }

  /**
   * The exported record carries the ClusterInfo kind, the cluster ID, the Service
   * CIDR (the configured one, or else the discovered one) and one GatewayIP per
   * local Gateway.
   */
  lemma StepExportContents(clusterID: string, localNamespace: string, leaderNamespace: string, serviceCIDR: string,
                           store: map<string, ResourceExport>, local: seq<Gateway>, discovery: Discovery)
    requires WellKeyed(store, leaderNamespace)
    ensures var s := ReconcileStep(clusterID, localNamespace, leaderNamespace, serviceCIDR, store, local, discovery);
      var gateways := ListGateways(local, localNamespace);
      s.err.None? && gateways != [] ==>
        var e := s.store[ExportName(clusterID)];
        && e.namespace == leaderNamespace && !e.deleting
        && e.spec.kind == ClusterInfoKind && e.spec.name == clusterID && e.spec.namespace == localNamespace
        && e.spec.clusterInfo.clusterID == clusterID
        && (serviceCIDR != "" ==> e.spec.clusterInfo.serviceCIDR == serviceCIDR)
        && (serviceCIDR == "" ==> discovery.Discovered? && e.spec.clusterInfo.serviceCIDR == discovery.cidr)
        && |e.spec.clusterInfo.gatewayInfos| == |gateways|
        && forall i :: 0 <= i < |gateways| ==> e.spec.clusterInfo.gatewayInfos[i].gatewayIP == gateways[i].gatewayIP
  {
    var s := ReconcileStep(clusterID, localNamespace, leaderNamespace, serviceCIDR, store, local, discovery);
    var gateways := ListGateways(local, localNamespace);
    if s.err.None? && gateways != [] {
      StepEstablishesDesired(clusterID, localNamespace, leaderNamespace, serviceCIDR, store, local, discovery);
      var e := s.store[ExportName(clusterID)];
      assert e == DesiredExport(clusterID, localNamespace, leaderNamespace, s.serviceCIDR, gateways);
    }
  }

  /** A reconciliation fails exactly when the Service CIDR cannot be resolved or the export is being deleted. */
  lemma StepFailsIff(clusterID: string, localNamespace: string, leaderNamespace: string, serviceCIDR: string,
                     store: map<string, ResourceExport>, local: seq<Gateway>, discovery: Discovery)
    ensures var s := ReconcileStep(clusterID, localNamespace, leaderNamespace, serviceCIDR, store, local, discovery);
      var name := ExportName(clusterID);
      var gateways := ListGateways(local, localNamespace);
      && (s.err.Some? <==>
            gateways != [] &&
            (ResolveServiceCIDR(serviceCIDR, discovery).Err? || (name in store && store[name].deleting)))
      && (s.err.Some? ==> s.store == store && s.writes == [])
      && (gateways != [] && ResolveServiceCIDR(serviceCIDR, discovery).Err? ==>
            s.err == Some(ServiceCIDRUnresolvable(discovery.reason)))
      && (gateways != [] && ResolveServiceCIDR(serviceCIDR, discovery).Ok? && name in store && store[name].deleting ==>
            s.err == Some(Api(AlreadyExists(name))))
  {
  }

  /** Reconciling again with unchanged inputs succeeds and writes nothing. */
  lemma StepIdempotent(clusterID: string, localNamespace: string, leaderNamespace: string, serviceCIDR: string,
                       store: map<string, ResourceExport>, local: seq<Gateway>, discovery: Discovery)
    requires WellKeyed(store, leaderNamespace)
    requires ReconcileStep(clusterID, localNamespace, leaderNamespace, serviceCIDR, store, local, discovery).err.None?
    ensures var s := ReconcileStep(clusterID, localNamespace, leaderNamespace, serviceCIDR, store, local, discovery);
      ReconcileStep(clusterID, localNamespace, leaderNamespace, s.serviceCIDR, s.store, local, discovery)
        == StepResult(None, s.store, [], s.serviceCIDR)
  {
    var s := ReconcileStep(clusterID, localNamespace, leaderNamespace, serviceCIDR, store, local, discovery);
    var name := ExportName(clusterID);
    var gateways := ListGateways(local, localNamespace);
    StepEstablishesDesired(clusterID, localNamespace, leaderNamespace, serviceCIDR, store, local, discovery);
    if gateways != [] {
      assert ResolveServiceCIDR(s.serviceCIDR, discovery) == Ok(s.serviceCIDR);
    }
  }

  /** Level triggering: two successful reconciliations of the same local state agree on the export, whatever the remote history. */
  lemma StepConverges(clusterID: string, localNamespace: string, leaderNamespace: string, serviceCIDR: string,
                      store1: map<string, ResourceExport>, store2: map<string, ResourceExport>,
                      local: seq<Gateway>, discovery: Discovery)
    requires WellKeyed(store1, leaderNamespace) && WellKeyed(store2, leaderNamespace)
    ensures var s1 := ReconcileStep(clusterID, localNamespace, leaderNamespace, serviceCIDR, store1, local, discovery);
      var s2 := ReconcileStep(clusterID, localNamespace, leaderNamespace, serviceCIDR, store2, local, discovery);
      var name := ExportName(clusterID);
      s1.err.None? && s2.err.None? ==>
        (name in s1.store <==> name in s2.store) && (name in s1.store ==> s1.store[name] == s2.store[name])
  {
    var s1 := ReconcileStep(clusterID, localNamespace, leaderNamespace, serviceCIDR, store1, local, discovery);
    var s2 := ReconcileStep(clusterID, localNamespace, leaderNamespace, serviceCIDR, store2, local, discovery);
    if s1.err.None? && s2.err.None? {
      StepEstablishesDesired(clusterID, localNamespace, leaderNamespace, serviceCIDR, store1, local, discovery);
      StepEstablishesDesired(clusterID, localNamespace, leaderNamespace, serviceCIDR, store2, local, discovery);
      assert ListGateways(local, localNamespace) != [] ==> s1.serviceCIDR == s2.serviceCIDR;
    }
  }

  /** The Gateway reconciler of one member-cluster namespace. */
  class GatewayReconciler {
    const namespace: string
    /** The configured Service CIDR, or once discovered the discovered one; empty when still unknown. */
    var serviceCIDR: string

    constructor (namespace: string, serviceCIDR: string)
      ensures this.namespace == namespace && this.serviceCIDR == serviceCIDR
    {
      this.namespace := namespace;
      this.serviceCIDR := serviceCIDR;
    }

    /** Makes sure the Service CIDR is known, discovering it when none is configured. */
    method GetServiceCIDR(discovery: Discovery) returns (err: Option<ReconcileError>)
      modifies this
      ensures match ResolveServiceCIDR(old(serviceCIDR), discovery)
        case Ok(cidr) => err == None && serviceCIDR == cidr
        case Err(e) => err == Some(e) && serviceCIDR == old(serviceCIDR)
    {
      if serviceCIDR == "" {
        match discovery
        case Discovered(cidr) =>
          serviceCIDR := cidr;
          err := None;
        case DiscoveryFailed(reason) =>
          err := Some(ServiceCIDRUnresolvable(reason));
      } else {
        err := None;
      }
    }

    /** Re-lists the local Gateways and brings the ClusterInfo export of `area` in line with them. */
    method Reconcile(area: RemoteCommonArea, local: seq<Gateway>, discovery: Discovery) returns (err: Option<ReconcileError>)
      requires area.Valid()
      modifies this, area
      ensures area.Valid()
      ensures var s := ReconcileStep(area.localClusterID, namespace, area.namespace, old(serviceCIDR),
                                     old(area.store), local, discovery);
        && err == s.err && area.store == s.store && serviceCIDR == s.serviceCIDR
        && area.log == old(area.log) + s.writes
      ensures area.store - {ExportName(area.localClusterID)} == old(area.store) - {ExportName(area.localClusterID)}
    {
      var name := ExportName(area.localClusterID);
      var gateways := ListGateways(local, namespace);
      if |gateways| == 0 {
        // With the last Gateway gone the export is withdrawn; NotFound is ignored.
        var deleteErr := area.Delete(name);
        err := None;
        return;
      }
      err := GetServiceCIDR(discovery);
      if err.Some? {
        return;
      }
      var desired := DesiredExport(area.localClusterID, namespace, area.namespace, serviceCIDR, gateways);
      var existing := area.Get(name);
      if existing.None? {
        var createErr := area.Create(desired);
        err := AsReconcileError(createErr);
      } else if existing.value.deleting {
        // The export being deleted still holds the name, so the new one is refused.
        var createErr := area.Create(desired);
        err := AsReconcileError(createErr);
      } else if existing.value.spec != desired.spec {
        var updateErr := area.Update(existing.value.(spec := desired.spec));
        err := AsReconcileError(updateErr);
      }
    }
  }
}
