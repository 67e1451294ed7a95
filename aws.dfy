/**
 * The values the cloud provider's SDK hands back to the discovery code.
 * The SDK calls themselves (config loading, ListClusters, DescribeCluster,
 * DescribeRegions, GetCallerIdentity) are not modelled: each call appears as a
 * parameter holding its fixed outcome.
 */
module Aws {
  import opened Wrappers

  /** The loaded SDK configuration; only the region it targets matters here. */
  datatype AwsConfig = AwsConfig(region: string)

  /** A copy of `cfg` that targets `region`, as done before building a regional client. */
  function WithRegion(cfg: AwsConfig, region: string): (c: AwsConfig)
    ensures c.region == region
  {
    cfg.(region := region)
  }

  /** One record of a DescribeRegions answer; `regionName` is a Go `*string`. */
  datatype RegionInfo = RegionInfo(endpoint: Option<string>, optInStatus: Option<string>, regionName: Option<string>)

  /** The answer of GetCallerIdentity; `account` is a Go `*string`. */
  datatype CallerIdentity = CallerIdentity(account: Option<string>, arn: Option<string>, userId: Option<string>)

  /** ListClusters, per region: the first page of cluster names in provider order, or the call's error. */
  type ListClustersOracle = string -> Result<seq<string>>

  /** DescribeCluster through the one shared client: the cluster's endpoint, or the call's error. */
  type DescribeOracle = string -> Result<string>
}
