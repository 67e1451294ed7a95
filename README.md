# EKS cluster discovery, modelled in Dafny

This project models the discovery pass of `main.go`: it finds the caller's
account, lists every region of the account, asks each region for its EKS
clusters, and then resolves each cluster's API endpoint. The state the program
builds is a `Clusters` object with two string lists, `Names` and `Urls`. Two
loops fill it in place.

The AWS SDK calls are not modelled. Each one is a parameter that holds its
fixed outcome:

- config loading: `Result<AwsConfig>`;
- `ListClusters`: a function from region to `Result<seq<string>>`, the first page of that region's cluster names;
- `DescribeCluster`: a function from cluster name to `Result<string>`, the endpoint;
- `DescribeRegions`: `Result<seq<RegionInfo>>`;
- `GetCallerIdentity`: `Result<CallerIdentity>`.

Files:

- `wrappers.dfy` (module `Wrappers`): `Option`, `Result` and `Error` (a Go `error`, kept as its message).
- `aws.dfy` (module `Aws`): the SDK values (`AwsConfig`, `RegionInfo`, `CallerIdentity`) and the oracle types.
- `discovery_spec.dfy` (module `DiscoverySpec`): what the two loops compute, as functions (`ClusterNames`, `ResolveEndpoints`), with the lemmas about them.
- `discovery.dfy` (module `Discovery`): the `Clusters` class and the four operations as methods and a function, proved against `DiscoverySpec`.

The two error policies are stated exactly:

- Cluster enumeration skips a failing region and goes on. `ClusterNames` concatenates the lists of the succeeding regions, in region order.
- Endpoint resolution stops at the first failing describe. `ResolveEndpoints` gives the endpoints of the names before that one, plus its error.

The model follows the code as written:

- cluster names carry no region;
- all describe calls go through the one shared client;
- failing regions are printed and then forgotten, with no per-region error map;
- endpoint resolution returns at the first failing describe and does not try the names after it;
- nothing is retried and nothing runs concurrently.

## Model

| member | source | states |
|---|---|---|
| `Discovery.Clusters.constructor` | main.go:48-51 | A new inventory has no names and no endpoints, like the zero value `&Clusters{}` created at main.go:117. |
| `Discovery.GetAccountInfo` | main.go:99-105 | The error is present exactly when GetCallerIdentity failed, and then no account is returned. Otherwise the provider's account value (possibly nil) is returned unchanged. |
| `Discovery.ListAwsRegions` | main.go:191-208 | If DescribeRegions fails: no names and that error. Otherwise: no error and one name per returned region, index for index in provider order. Zero regions gives an empty list and no error. |
| `Discovery.GetAllClusters` | main.go:116-149 | The error is present exactly when config loading fails, so a failing region never turns into an error of the whole scan. On that error the result is nil and no region is queried. Otherwise a fresh inventory is returned whose `Names` is `ClusterNames` of the regions and whose `Urls` is empty. Every region is queried once, in list order, and `baseClient` does not affect the result. |
| `Discovery.GetClusterEndpoints` | main.go:152-161 | `Names` is unchanged. `Urls` becomes its old value followed by `ResolveEndpoints(Names).urls`, so existing entries are kept. The error returned is `ResolveEndpoints(Names).err`. |
| `Aws.WithRegion` | main.go:128-129 | The copied configuration targets the given region, whatever region the original targeted. |
| `DiscoverySpec.ResolveEndpoints` | main.go:153-160 | At most one endpoint per name. Endpoint `i` is the describe result of name `i`, and that describe succeeded. With no error there is one endpoint per name. With an error the endpoints are a strict prefix: the name right after them failed with exactly that error. |
| `DiscoverySpec.FailureIsFinal` | main.go:155-157 | Once the names up to some point have produced an error, later names change neither the endpoints nor the error: the loop returns at the first failure. |
| `DiscoverySpec.ResolvePrefix` | main.go:153-158 | Resolving a prefix of the names yields a prefix of the endpoints. Endpoints are only appended. |
| `DiscoverySpec.AllDescribesSucceed` | main.go:153-160 | Every describe succeeds if and only if no error is returned. |
| `DiscoverySpec.FirstFailureReported` | main.go:154-157 | When name `k` is the first whose describe fails, the error returned is that describe's error, and exactly `k` endpoints were appended. |
| `DiscoverySpec.ClusterNames` | main.go:126-146 | The names the enumeration loop collects over the region list. It has no contract of its own; `ClusterPosition`, `ClusterCount`, `ClusterOrigin` and `FailingRegionSkipped` state what it means, and `GetAllClusters` is proved equal to it. |
| `DiscoverySpec.RegionClusters` | main.go:136-143 | What one region adds: its ListClusters list unchanged, or nothing when the call fails. It has no contract of its own; its meaning is its body, used by `SingleRegion`, `FailingRegionSkipped` and `ClusterPosition`. |
| `DiscoverySpec.ClusterNamesAppend` | main.go:126-146 | Enumerating two region lists one after the other gives the concatenation of their results. Regions appear in list order. |
| `DiscoverySpec.SingleRegion` | main.go:136-145 | One region contributes its cluster list in provider order, duplicates kept, or nothing if its ListClusters call failed. |
| `DiscoverySpec.FailingRegionSkipped` | main.go:136-140 | A region whose ListClusters fails adds no names. The result equals the one for the region list without that region. |
| `DiscoverySpec.ClusterPosition` | main.go:142-143 | Cluster `j` of a succeeding region `i` sits at index (number of names from regions before `i`) + `j`. Order within and across regions is preserved. |
| `DiscoverySpec.ClusterOrigin` | main.go:136-143 | Every collected name was returned by the ListClusters call of some region that succeeded. |
| `DiscoverySpec.ClusterCount` | main.go:126-146 | The number of names collected is the sum of the list lengths of the regions whose ListClusters succeeded. |
| `DiscoverySpec.AllRegionsFail` | main.go:136-140 | If every region's ListClusters fails, no names are collected. |

## Left out

- `main` (main.go:53-96) only runs the modelled operations in sequence, exits with `log.Fatalf`, and prints the results.
- `printRegions` and the progress lines printed inside the loops are console output only.
- `newSTSClient`, `newEKSClient`, `newEC2Client` and `ConfigLoader`/`DefaultConfigLoader` are not modelled. They build SDK clients and load config through foreign library code. Their `log.Fatal` is a process exit.
- The SDK and network internals are not modelled: config loading, `cfg.Copy()`, `eks.NewFromConfig`, and the request and response types. Each call is the fixed outcome passed as a parameter. The regional client is the copied configuration with its region set, and the list call is keyed by that region.
- `context.Context` is not modelled; it has no effect on the modelled logic.
- The nil-pointer dereference of `RegionName` (main.go:204) is a precondition of `ListAwsRegions`: every returned region carries a name.
- The nil-pointer dereferences of `Cluster` and `Endpoint` (main.go:158) are ruled out by the describe oracle's type, which yields the endpoint string itself.
- ListClusters pagination is not followed: the code sends one request with no `NextToken`, so a region contributes only the first page of its clusters, and the model does the same.
- Go's nil slice versus empty slice is not modelled. Both are the empty sequence.
