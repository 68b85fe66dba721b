// The cases of the Gateway reconciler's test table, stated as facts about
// one reconciliation of member cluster "cluster-a" in namespace "default".

module GatewayScenarios {
  import opened MulticlusterApi
  import opened CommonArea
  import opened GatewayController

  const LocalClusterID: string := "cluster-a"
  const LocalNamespace: string := "default"
  const StaticServiceCIDR: string := "10.96.0.0/12"
  const ClusterAExport: string := "cluster-a-clusterinfo"

  const GwNode1: Gateway := Gateway("default", "node-1", "10.10.10.10", "172.11.10.1")
  const GwNode1New: Gateway := Gateway("default", "node-1", "10.10.10.12", "172.11.10.1")

  /** The live export that cluster-a has published for GwNode1. */
  function ExistingResExport(leaderNamespace: string): ResourceExport
  {
    ResourceExport(ClusterAExport, leaderNamespace,
      ResourceExportSpec(LocalClusterID, LocalNamespace, ClusterInfoKind,
        ClusterInfo(LocalClusterID, StaticServiceCIDR, [GatewayInfo("10.10.10.10")])),
      false)
  }

  lemma ClusterAExportName()
    ensures ExportName(LocalClusterID) == ClusterAExport
  {
  }

  /** One Gateway and no export: the export is created with that Gateway's IP. */
  lemma CreateScenario(leaderNamespace: string, discovery: Discovery)
    ensures var s := ReconcileStep(LocalClusterID, LocalNamespace, leaderNamespace, StaticServiceCIDR,
                                   map[], [GwNode1], discovery);
      && s.err == None && s.writes == [Created(ClusterAExport)]
      && ClusterAExport in s.store
      && s.store[ClusterAExport].spec.clusterInfo.gatewayInfos == [GatewayInfo("10.10.10.10")]
      && s.store[ClusterAExport].spec.clusterInfo.serviceCIDR == StaticServiceCIDR
  {
    ClusterAExportName();
    assert ListGateways([GwNode1], LocalNamespace) == [GwNode1];
  }

  /** The text the API machinery builds for the export's AlreadyExists error, spelled out. */
  lemma AlreadyExistsText()
    ensures ResourceExportResource + " \"" + ClusterAExport + "\" already exists"
      == "resourceexports.multicluster.crd.antrea.io \"cluster-a-clusterinfo\" already exists"
  {
    var head := ResourceExportResource + " \"";
    assert head == "resourceexports.multicluster.crd.antrea.io \"";
    var quoted := head + ClusterAExport;
    assert quoted == "resourceexports.multicluster.crd.antrea.io \"cluster-a-clusterinfo";
  }

  /** The AlreadyExists error of the export reads as the API machinery prints it. */
  lemma AlreadyExistsMessage()
    ensures ErrorMessage(Api(AlreadyExists(ClusterAExport)))
      == "resourceexports.multicluster.crd.antrea.io \"cluster-a-clusterinfo\" already exists"
  {
    AlreadyExistsText();
    assert ApiErrorMessage(AlreadyExists(ClusterAExport)) == ResourceExportResource + " \"" + ClusterAExport + "\" already exists";
  }

  /** The export is being deleted: the reconciliation fails with AlreadyExists and changes nothing. */
  lemma DeletingScenario(leaderNamespace: string, discovery: Discovery)
    ensures var stale := ExistingResExport(leaderNamespace).(deleting := true);
      var s := ReconcileStep(LocalClusterID, LocalNamespace, leaderNamespace, StaticServiceCIDR,
                             map[ClusterAExport := stale], [GwNode1], discovery);
      && s.err == Some(Api(AlreadyExists(ClusterAExport)))
      && ErrorMessage(s.err.value) == "resourceexports.multicluster.crd.antrea.io \"cluster-a-clusterinfo\" already exists"
      && s.store == map[ClusterAExport := stale] && s.writes == []
  {
    ClusterAExportName();
    AlreadyExistsMessage();
    assert ListGateways([GwNode1], LocalNamespace) == [GwNode1];
  }

  /** The Gateway's IP changed: the live export is updated to carry the new IP. */
  lemma UpdateScenario(leaderNamespace: string, discovery: Discovery)
    ensures var s := ReconcileStep(LocalClusterID, LocalNamespace, leaderNamespace, StaticServiceCIDR,
                                   map[ClusterAExport := ExistingResExport(leaderNamespace)], [GwNode1New], discovery);
      && s.err == None && s.writes == [Updated(ClusterAExport)]
      && ClusterAExport in s.store
      && s.store[ClusterAExport].spec.clusterInfo.gatewayInfos == [GatewayInfo("10.10.10.12")]
  {
    ClusterAExportName();
    assert ListGateways([GwNode1New], LocalNamespace) == [GwNode1New];
  }

  /** The last Gateway is gone: the export is deleted and a later read finds nothing. */
  lemma DeleteScenario(leaderNamespace: string, discovery: Discovery)
    ensures var s := ReconcileStep(LocalClusterID, LocalNamespace, leaderNamespace, StaticServiceCIDR,
                                   map[ClusterAExport := ExistingResExport(leaderNamespace)], [], discovery);
      s.err == None && s.writes == [Deleted(ClusterAExport)] && ClusterAExport !in s.store
  {
    ClusterAExportName();
  }

  /** No configured Service CIDR and a cluster that yields none: resolution fails with the discovery's reason. */
  lemma ServiceCIDRScenario()
    ensures var r := ResolveServiceCIDR("", DiscoveryFailed("expected a specific error but none was returned"));
      r.Err? && ErrorMessage(r.error) == "expected a specific error but none was returned"
  {
  }

  /**
   * Drives the reconciler the way the test table does: one Gateway and an
   * empty leader namespace, then a second pass over the same state.
   */
  method CreateThenRerun(leaderNamespace: string, discovery: Discovery)
    returns (firstErr: Option<ReconcileError>, secondErr: Option<ReconcileError>,
             writes: seq<Write>, infos: seq<GatewayInfo>)
    ensures firstErr == None && secondErr == None
    ensures writes == [Created(ClusterAExport)]
    ensures infos == [GatewayInfo("10.10.10.10")]
  {
    var area := new RemoteCommonArea("leader-cluster", LocalClusterID, leaderNamespace, map[]);
    var reconciler := new GatewayReconciler(LocalNamespace, StaticServiceCIDR);
    CreateScenario(leaderNamespace, discovery);
    StepIdempotent(LocalClusterID, LocalNamespace, leaderNamespace, StaticServiceCIDR, map[], [GwNode1], discovery);
    firstErr := reconciler.Reconcile(area, [GwNode1], discovery);
    secondErr := reconciler.Reconcile(area, [GwNode1], discovery);
    writes := area.log;
    var read := area.Get(ClusterAExport);
    infos := if read.Some? then read.value.spec.clusterInfo.gatewayInfos else [];
  }
}
