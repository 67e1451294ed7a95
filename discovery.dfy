/**
 * Cluster discovery across the regions of one cloud account: the inventory
 * object and the loops that fill it. Every SDK call is a parameter holding its
 * outcome; see module Aws.
 */
module Discovery {
  import opened Wrappers
  import opened Aws
  import opened DiscoverySpec

  /** The inventory: cluster names, and the endpoints resolved for them so far. */
  class Clusters {
    var Names: seq<string>
    var Urls: seq<string>

    /** An empty inventory. */
    constructor ()
      ensures Names == [] && Urls == []
    {
      Names := [];
      Urls := [];
    }
  }

  /** The account id of the caller, or the identity call's error passed through unchanged. */
  function GetAccountInfo(callerIdentity: Result<CallerIdentity>): (r: (Option<string>, Option<Error>))
    ensures r.1.Some? <==> callerIdentity.Err?
    ensures callerIdentity.Err? ==> r.0.None? && r.1 == Some(callerIdentity.error)
    ensures callerIdentity.Ok? ==> r.0 == callerIdentity.value.account
  {
    match callerIdentity
    case Err(e) => (None, Some(e))
    case Ok(identity) => (identity.account, None)
  }

  /**
   * The names of all regions the provider reports, in its order, or no names and
   * the error. Every reported region carries a name.
   */
  method ListAwsRegions(describeRegions: Result<seq<RegionInfo>>) returns (regions: seq<string>, err: Option<Error>)
    requires describeRegions.Ok? ==>
               forall i :: 0 <= i < |describeRegions.value| ==> describeRegions.value[i].regionName.Some?
    ensures describeRegions.Err? ==> regions == [] && err == Some(describeRegions.error)
    ensures describeRegions.Ok? ==> err.None? && |regions| == |describeRegions.value|
    ensures describeRegions.Ok? ==>
              forall i :: 0 <= i < |regions| ==> regions[i] == describeRegions.value[i].regionName.value
  {
    if describeRegions.Err? {
      return [], Some(describeRegions.error);
    }
    var infos := describeRegions.value;
    regions := [];
    for k := 0 to |infos|
      invariant |regions| == k
      invariant forall i :: 0 <= i < k ==> regions[i] == infos[i].regionName.value
    {
      regions := regions + [infos[k].regionName.value];
    }
    err := None;
  }

  /**
   * Lists the clusters of every region, with a client scoped to that region.
   * A region whose ListClusters fails is skipped; only a failure to load the
   * configuration is an error, and then no region is visited. `baseClient` is
   * accepted and ignored. The ghost `visited` records the regions queried, in order.
   */
  method GetAllClusters<Client>(regions: seq<string>, loadConfig: Result<AwsConfig>,
                                listClusters: ListClustersOracle, baseClient: Client)
    returns (clusters: Clusters?, err: Option<Error>, ghost visited: seq<string>)
    ensures err.Some? <==> loadConfig.Err?
    ensures loadConfig.Err? ==> clusters == null && err == Some(loadConfig.error) && visited == []
    ensures loadConfig.Ok? ==> clusters != null && fresh(clusters) && visited == regions
    ensures loadConfig.Ok? ==> clusters.Names == ClusterNames(listClusters, regions) && clusters.Urls == []
  {
    var inventory := new Clusters();
    visited := [];
    if loadConfig.Err? {
      return null, Some(loadConfig.error), visited;
    }
    var cfg := loadConfig.value;
    for k := 0 to |regions|
      invariant inventory.Names == ClusterNames(listClusters, regions[..k])
      invariant inventory.Urls == []
      invariant visited == regions[..k]
    {
      var regionCfg := WithRegion(cfg, regions[k]);
      var output := listClusters(regionCfg.region);
      visited := visited + [regionCfg.region];
      assert regions[..k + 1][..k] == regions[..k];
      if output.Err? {
        continue;
      }
      inventory.Names := inventory.Names + output.value;
    }
    assert regions[..|regions|] == regions;
    return inventory, None, visited;
  }

  /**
   * Appends the endpoint of each name to `Urls`, in name order, through one
   * shared describe client; the first failing describe ends the loop and its
   * error is returned. `Names` is not changed.
   */
  method GetClusterEndpoints(describe: DescribeOracle, clusters: Clusters) returns (err: Option<Error>)
    modifies clusters
    ensures clusters.Names == old(clusters.Names)
    ensures clusters.Urls == old(clusters.Urls) + ResolveEndpoints(describe, old(clusters.Names)).urls
    ensures err == ResolveEndpoints(describe, old(clusters.Names)).err
  {
    var names := clusters.Names;
    for k := 0 to |names|
      invariant clusters.Names == names
      invariant ResolveEndpoints(describe, names[..k]).err.None?
      invariant clusters.Urls == old(clusters.Urls) + ResolveEndpoints(describe, names[..k]).urls
    {
      assert names[..k + 1][..k] == names[..k];
      var info := describe(names[k]);
      if info.Err? {
        FailureIsFinal(describe, names, k + 1);
        return Some(info.error);
      }
      clusters.Urls := clusters.Urls + [info.value];
    }
    assert names[..|names|] == names;
    return None;
  }
}
