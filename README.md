# nsxt_exporter, modelled in Dafny

A model of the scrape-and-normalise core of `nsxt_exporter`, a Prometheus exporter for
VMware NSX-T. On every scrape the exporter:

- reads the NSX cluster status, every cluster node, the load-balancer services with their
  virtual servers, pools and pool members, and the tier-0 and tier-1 gateways through the
  NSX API;
- joins the configuration, status and statistics records of each object;
- writes the figures into Prometheus gauge families, whose label values are built from
  possibly-absent (nil) record fields.

The model covers:

- the list walkers with their cursor pagination and name/id allow-lists
  (`Pagination`, `LoadBalancerApi`, `TierApi`);
- the load-balancer joiner (`LoadBalancerApi`) and the node loader (`NodeApi`);
- the retry decision (`Retry`);
- the nil-coalescing setters (`Setter`) over a gauge family modelled as a map from
  label values to a value (`Gauge`);
- every metric group's `Populate` and `Reset`: `GenericMetrics`,
  `LoadBalancerMetrics`, `VirtualServerMetrics`, `PoolMetrics`, `GatewayMetrics`,
  `ClusterNodeMetrics`;
- the PEM certificate splitter (`Certificates`);
- the stage machine of a scrape (`ScrapeRecorder`);
- the configuration post-checks (`Configuration`);
- the scrape/sleep loop of `main` (`Scheduler`).

`Common` holds `Option`/`Result` and a map-with-first-error fold. `Text` models the Go
string routines the exporter calls.

The gateway — the NSX REST API behind the SDK clients — is a datatype of total,
possibly-failing functions (`NsxGateway.Gateway`). Records are plain datatypes whose
optional fields are `Option`s (`Records`). Gauge values are `real`s treated as opaque
numbers.

Metric structs whose Go methods update their gauge fields in place are classes. Each such
class holds its families in `var` fields. Its methods are proved against a pure function on
a snapshot datatype of those families, for example `LBFamilies.Populate`. The properties
are lemmas about those functions. Loops of the source are `while` loops, proved against
recursive specification functions. Examples are `WalkPages`, `Search`, `SetL`,
`ProcessCertificates`, the node, load-balancer and gateway loops of `RecordMetrics`, and
`Scheduler.Run`.

A note on the label-arity convention. A real `GaugeVec` panics when a write carries a
number of label values other than the number of declared label names. The model does not
refuse such writes. Instead, `Gauge.Consistent` says that every stored series has the
declared arity, and the `*KeepsDeclares` lemmas prove that populating keeps every family
consistent. This holds for every family except the four status families of the first
finding below. The model uses the corrected declarations for those four.

## Model

| member | source | states |
|---|---|---|
| `ApiUtils.PathToIDNoSlash` | api/utils.go:8-11 | the identifier `PathToID` returns contains no "/" |
| `ApiUtils.PathToIDSuffix` | api/utils.go:8-11 | the identifier is a suffix of the path, and a "/" precedes it unless it is the whole path (so it is the text after the last "/") |
| `ApiUtils.PathToIDOfJoin` | api/utils.go:8-11 | `prefix + "/" + id` with a slash-free `id` gives back `id` |
| `ApiUtils.PathToIDOfPlain` | api/utils.go:8-11 | a path without "/" is its own identifier |
| `ApiUtils.NotFound` | api/utils.go:19 | the error of a failed search names the needle in the source's message |
| `ApiUtils.FirstIndex` | api/utils.go:13-20 | the reference for `search`: the index returned holds the needle and no lower index does; there is none exactly when no element's key is the needle |
| `ApiUtils.Search` | api/utils.go:13-20 | succeeds exactly when some element's key equals the needle; then returns the lowest-index such element, which lies in the array and has that key; otherwise fails with the error naming the needle |
| `Retry.ShouldRetry` | api/api.go:145-172 | retries exactly when there is no response or its status code is 429 or 503 (the `retryCodes` table of api/api.go:22); waits only when it retries, then `500 + draw` ms, i.e. from 500 up to 4999 ms |
| `Pagination.KeptMembers` | api/load_balancer.go:54-62 | an entry of a page is kept exactly when the allow-list is empty or holds its display name or id |
| `Pagination.KeptConcat` | api/load_balancer.go:54-62 | filtering keeps order: the kept entries of two parts are the kept entries of each, one after the other |
| `Pagination.KeptAllWhenNoFilter` | api/load_balancer.go:55 | an empty allow-list keeps every entry, in order |
| `Pagination.PagesFollowCursors` | api/load_balancer.go:47-68 | the pages a walk fetches are exactly a cursor chain: the first comes from a nil cursor, each next one from the previous page's cursor, and only the last page has none (both directions) |
| `Pagination.ConcatKeptMembers` | api/load_balancer.go:54-62 | an entry is in the result exactly when some fetched page holds it and the filter keeps it |
| `Pagination.WalkIsConcatenation` | api/load_balancer.go:47-68 | a walk returns the kept entries of all pages concatenated in page order and in-page order, or the first page error with no partial list |
| `Pagination.WalkPages` | api/load_balancer.go:40-70 | the shared cursor loop computes exactly the walk: fetch, filter, append, follow the cursor, stop on nil, return at the first error |
| `LoadBalancerApi.ListLoadBalancers` | api/load_balancer.go:40-70 | the LB list is the walk over the LB pages kept by `LBFilters` |
| `LoadBalancerApi.ExactlyOneAsWritten` | api/load_balancer.go:85-113 | as written: a call error is passed on; otherwise a record is returned exactly when there is one result that converts, and the error is always nil |
| `LoadBalancerApi.EmptyResultsGiveNeitherRecordNorError` | api/load_balancer.go:95-98 | as written, a successful call with no result gives neither a record nor an error |
| `LoadBalancerApi.ExactlyOne` | api/load_balancer.go:85-143 | corrected: a record exactly when there is one result that converts; "not found" for none, "too many results" for several, the call's error passed on |
| `LoadBalancerApi.ExactlyOneCorrects` | api/load_balancer.go:85-143 | the corrected check returns the same record as the written one whenever the written one returns a record, and fails whenever the written one returns none |
| `LoadBalancerApi.MemberKeyInjective` | api/load_balancer.go:196-198 | the `ip:port` join key determines ip and port, for ports without ':' |
| `LoadBalancerApi.LastColon` | api/load_balancer.go:196 | the port is everything after the last ':' of a member key |
| `LoadBalancerApi.VSJoinedAll` | api/load_balancer.go:162-179 | joined virtual servers: one per status entry in status order, each with the configuration fetched by the last segment of its path and a statistics entry of the identical path |
| `LoadBalancerApi.MembersJoinedAll` | api/load_balancer.go:194-208 | joined members: one per member status in order, each with a statistics entry of the same `ip:port` |
| `LoadBalancerApi.JoinPoolOk` | api/load_balancer.go:181-215 | a joined pool carries its status, the configuration fetched by its path's last segment, a statistics entry of the same path and its joined members |
| `LoadBalancerApi.PoolsJoinedAll` | api/load_balancer.go:181-216 | joined pools: one per pool status in status order |
| `LoadBalancerApi.LBInfoJoined` | api/load_balancer.go:145-219 | a successful `GetLBServiceInfo` holds the fetched configuration, status and statistics, and the virtual servers and pools joined entry by entry with the status |
| `LoadBalancerApi.MissingVSStatsAborts` | api/load_balancer.go:167-173 | a virtual server without a statistics entry of its path makes the whole call fail with the lookup error, once the earlier ones joined |
| `LoadBalancerApi.EmptyStatusCrashes` | api/load_balancer.go:95-98 | as written, an empty detailed status followed by a successful statistics call makes `GetLBServiceInfo` dereference the nil status in its first loop (line 162); the corrected call fails with "not found" |
| `LoadBalancerApi.EmptyStatusStatsError` | api/load_balancer.go:153-160 | as written, an empty detailed status followed by a failing statistics call returns the statistics error, because the nil status is not touched before the statistics call; the corrected call reports "not found" for the status |
| `LoadBalancerApi.NilStatsNoChildrenSucceeds` | api/load_balancer.go:125-128 | as written, a load balancer with no virtual server and no pool whose statistics come back empty succeeds with nil statistics; the corrected call fails with "not found" |
| `LoadBalancerApi.LBInfoCorrects` | api/load_balancer.go:145-219 | the corrected call succeeds exactly when the written one returns a record, and with that record; where the written one returns an error, crashes or succeeds with nil statistics, the corrected one fails; once both fetches give a record, the two return the same |
| `LoadBalancerApi.GetLBServiceInfo` | api/load_balancer.go:145-219 | fetches configuration, status, then statistics, returns at the first error, then runs the join loops; the result is exactly the reference join |
| `LoadBalancerApi.VirtualServers` | api/load_balancer.go:162-179 | the virtual-server loop maps each status entry through the join and stops at the first miss |
| `LoadBalancerApi.Pools` | api/load_balancer.go:181-216 | the pool loop maps each pool status through the join and stops at the first miss |
| `LoadBalancerApi.OnePool` | api/load_balancer.go:182-215 | one pool pass: configuration, statistics, then members, the first miss aborting |
| `LoadBalancerApi.Members` | api/load_balancer.go:194-208 | the member loop joins each member status on `ip:port` and stops at the first miss |
| `TierApi.ListT0` | api/tier0.go:11-42 | the tier-0 list is the walk over the tier-0 pages kept by `T0Filters` |
| `TierApi.ListT1` | api/tier1.go:11-42 | the tier-1 list is the walk over the tier-1 pages kept by `T1Filters` |
| `TierApi.ListedTiers` | api/tier0.go:18-39 | when every page call succeeds, a gateway is listed exactly when some page holds it and the filter keeps it |
| `TierApi.GetT0Status` | api/tier0.go:44-53 | the state on success; the call's error passed through unchanged on failure |
| `TierApi.GetT1Status` | api/tier1.go:44-53 | the state on success; the call's error passed through unchanged on failure |
| `NodeApi.InterfacesOf` | api/node.go:46-61 | one interface record per listed interface |
| `NodeApi.NodeInfoShape` | api/node.go:19-64 | the node record exists exactly when the status, configuration and interface-list calls all succeed; otherwise the first failure's error; it holds their results and one interface per listed id, in list order |
| `NodeApi.InterfacesPointwise` | api/node.go:46-61 | the i-th interface record is built from the i-th listed id |
| `NodeApi.GetClusterNodeInfo` | api/node.go:19-64 | the loader computes exactly the reference record; the interface loop never aborts, since its checks test the list call's nil error |
| `Setter.Zero` | metrics/setter.go:22-28 | the pointee when present, otherwise the zero value |
| `Setter.SetP` | metrics/setter.go:34-38 | writes the value exactly when present; otherwise the family is unchanged |
| `Setter.SetB` | metrics/setter.go:40-46 | always writes the series, and only it: 1 exactly when the flag is present and true, 0 otherwise |
| `Setter.SetV` | metrics/setter.go:49-55 | always writes the series, and only it: 1 exactly when the value is present and equals the expected one, 0 otherwise |
| `Setter.StatusToValue` | metrics/setter.go:84-89 | 1 exactly for the expected status, 0 for any other |
| `Setter.Slice` | metrics/setter.go:77-82 | a sequence made of the given labels followed by the extra values |
| `Setter.Present` | metrics/setter.go:58-75 | the formatted non-nil values; all of them exactly when none is nil, then in order |
| `Setter.SetLOf` | metrics/setter.go:58-75 | writes 1 under the labels extended by every value when no value is nil; otherwise writes nothing |
| `Setter.SetL` | metrics/setter.go:58-75 | the extending loop computes exactly `SetLOf` |
| `Text.FormatIntRoundTrip` | metrics/setter.go:63-69 | `%d` loses nothing: the printed number reads back as itself |
| `Text.FormatIntInjective` | metrics/setter.go:63-69 | two numbers print alike only when they are equal |
| `Text.TrimSpace` | metrics/utils.go:23 | the trimmed text neither starts nor ends with white space and is no longer than the input |
| `Text.TrimSpaceSlice` | metrics/utils.go:23 | the trimmed text is a slice of the input, and everything outside that slice is white space |
| `Text.ToUpper` | config/config.go:34 | the same length as the input, each character upper-cased |
| `Text.ToUpperIdempotent` | config/config.go:34 | upper-casing twice is upper-casing once |
| `Text.ReplaceChar` | metrics/generic.go:45 | one replacement of every occurrence, as the help texts use for "_" to " ": same length, each occurrence of the character replaced, every other character kept |
| `Gauge.NewGaugeVec` | metrics/generic.go:41-46 | a new family carries the given namespace, name, help and label names, and has no series |
| `Gauge.Set` | metrics/setter.go:30-32 | a write sets one series and leaves every other series and the options alone |
| `Gauge.Reset` | metrics/generic.go:56-59 | a reset drops every series and keeps the options |
| `Gauge.SetKeepsConsistent` | metrics/setter.go:30-32 | a write of the declared arity keeps a family consistent |
| `Gauge.SetOtherArityInconsistent` | metrics/load_balancer.go:53 | a write of another arity leaves a series the family cannot hold |
| `Gauge.SetIdempotent` | metrics/setter.go:30-32 | writing the same value twice is writing it once |
| `Gauge.SetCommutes` | metrics/setter.go:30-32 | writes to different series commute |
| `Gauge.SetEachLastWins` | metrics/setter.go:30-32 | after a sequence of writes each series holds its last written value; series never written keep their value |
| `Gauge.LastWriteFound` | metrics/setter.go:30-32 | the last write to a series exists exactly when some write targets it, and no later write does |
| `GenericMetrics.FamilyNameInjective` | metrics/generic.go:44-50 | the generic family names of one object, `object_suffix`, differ whenever their suffixes do |
| `GenericMetrics.NewTotalMetrics` | metrics/generic.go:39-54 | two empty families `object_kind_total` and `object_kind_max` under the given namespace and labels, with help texts naming the object with spaces for underscores |
| `GenericMetrics.TotalMetrics.Reset` | metrics/generic.go:56-59 | both families cleared, their options kept |
| `GenericMetrics.NewRateMetrics` | metrics/generic.go:61-76 | two empty families `object_kind` and `object_kind_rate` with their help texts |
| `GenericMetrics.RateMetrics.Reset` | metrics/generic.go:78-81 | both families cleared, their options kept |
| `GenericMetrics.NewSessionMetrics` | metrics/generic.go:83-110 | four families `object_session_kind_{rate,current,total,max}` whose help texts keep the object name as given, together declaring the labels |
| `GenericMetrics.SessionMetrics.Reset` | metrics/generic.go:112-117 | all four families cleared, their options kept |
| `GenericMetrics.SessionMetrics.Record` | metrics/load_balancer.go:129-136 | the four session `setp` writes: each present figure is written under the labels into its own family; an absent one leaves its family alone |
| `GenericMetrics.RecordKeepsDeclares` | metrics/load_balancer.go:129-136 | session writes with as many label values as declared names keep all four families consistent |
| `GenericMetrics.RecordSameOutside` | metrics/load_balancer.go:129-136 | session writes under some labels touch no series outside any prefix of those labels |
| `GenericMetrics.NewNetworkMetrics` | metrics/generic.go:119-129 | fourteen empty families under the namespace, each declaring the labels |
| `GenericMetrics.NewNetworkDeclares` | metrics/generic.go:119-129 | a new network group declares its labels and holds no series |
| `GenericMetrics.NetworkNames` | metrics/generic.go:119-129 | the network families of an object are named `object_` followed by their own suffix |
| `GenericMetrics.NetworkNamesDistinct` | metrics/generic.go:119-129 | no two network families of one object share a name, so all of them can be registered |
| `GenericMetrics.NetworkMetrics.Reset` | metrics/generic.go:131-139 | all seven groups, i.e. all fourteen families, cleared |
| `GenericMetrics.NetworkMetrics.Populate` | metrics/generic.go:141-156 | each of the fourteen counters goes through `setp` into its own family: a present one is written under the labels, an absent one leaves its family as it was |
| `GenericMetrics.NetworkPopulateWrites` | metrics/generic.go:141-156 | after populating, every present counter is readable under the labels in its family; every family of an absent counter is unchanged |
| `GenericMetrics.NetworkPopulateKeepsDeclares` | metrics/generic.go:141-156 | populating with as many label values as declared names keeps every family consistent |
| `GenericMetrics.NetworkPopulateIdempotent` | metrics/generic.go:141-156 | populating twice with the same counters is populating once |
| `GenericMetrics.NetworkResetClears` | metrics/generic.go:131-139 | a reset group keeps its declarations and holds no series |
| `GenericMetrics.NetworkPopulateSameOutside` | metrics/generic.go:141-156 | populating under some labels touches no series outside any prefix of them |
| `LoadBalancerMetrics.NewLBFamilies` | metrics/load_balancer.go:39-93 | the families of `NewLBMetrics`, with their names, each declaring its labels (with the corrected status declaration) |
| `LoadBalancerMetrics.LBFamilies.Reset` | metrics/load_balancer.go:95-106 | the eight plain families and both session groups cleared |
| `LoadBalancerMetrics.PopulateWrites` | metrics/load_balancer.go:108-128 | `enable` is 1 exactly for an enabled balancer and `status` 1 exactly for an "UP" service, both always written; `info` is 1 under the size, empty when absent; `vsCount` is the number of virtual servers in the status; an error series exactly when the status carries a message; an alarm series exactly when it carries an alarm, labelled with its id and message |
| `LoadBalancerMetrics.PopulateWritesFigures` | metrics/load_balancer.go:115-136 | the cpu and memory usage and each of the eight L4 and L7 session figures is written under the balancer's name and id when present, and leaves its family as it was when absent |
| `LoadBalancerMetrics.PopulateSameOutside` | metrics/load_balancer.go:108-137 | populating one balancer touches only series labelled with its name and id, so the other balancers of a scrape keep theirs |
| `LoadBalancerMetrics.PopulateKeepsDeclares` | metrics/load_balancer.go:108-137 | with the corrected declaration every write has its family's arity, so populating keeps all families consistent |
| `LoadBalancerMetrics.StatusAsWrittenInconsistent` | metrics/load_balancer.go:48-53 | as written, the status family, declared with an extra "status" label, cannot hold the series `Populate` writes to it |
| `LoadBalancerMetrics.ResetClears` | metrics/load_balancer.go:95-106 | after a reset no family holds a series and every family keeps its declaration |
| `LoadBalancerMetrics.LBMetrics.constructor` | metrics/load_balancer.go:39-93 | the new object's families are `NewLBFamilies` |
| `LoadBalancerMetrics.LBMetrics.Reset` | metrics/load_balancer.go:95-106 | the fields become the reset snapshot |
| `LoadBalancerMetrics.LBMetrics.Populate` | metrics/load_balancer.go:108-137 | the fields become the populated snapshot |
| `VirtualServerMetrics.InfoLabelsShape` | metrics/virtual_server.go:94-99 | the info series carries the server's name and id, its address and the slash-free ids of its pool and load balancer |
| `VirtualServerMetrics.NewVSFamilies` | metrics/virtual_server.go:41-76 | the families of `NewVSMetrics` with their names, each declaring its labels (with the corrected status declaration) |
| `VirtualServerMetrics.PopulateWrites` | metrics/virtual_server.go:88-115 | `enable` is 1 exactly for an enabled server and `status` 1 exactly for an "UP" one, both always written; the info series names address, pool id and balancer id; an alarm series only for a present alarm; the source-IP figure only when present; the network group populated under the server's labels |
| `VirtualServerMetrics.PopulateSameOutside` | metrics/virtual_server.go:88-115 | populating one virtual server touches only series labelled with its name and id |
| `VirtualServerMetrics.PopulateKeepsDeclares` | metrics/virtual_server.go:88-115 | with the corrected declaration every write has its family's arity |
| `VirtualServerMetrics.StatusAsWrittenInconsistent` | metrics/virtual_server.go:51-56 | as written, the status family cannot hold the series `Populate` writes to it |
| `VirtualServerMetrics.ResetClears` | metrics/virtual_server.go:78-86 | after a reset no family holds a series and every declaration stays; resetting the HTTP pair a second time changes nothing beyond the network reset |
| `VirtualServerMetrics.VSMetrics.constructor` | metrics/virtual_server.go:41-76 | the new object's families are `NewVSFamilies` |
| `VirtualServerMetrics.VSMetrics.Reset` | metrics/virtual_server.go:78-86 | the fields become the reset snapshot |
| `VirtualServerMetrics.VSMetrics.Populate` | metrics/virtual_server.go:88-115 | the fields become the populated snapshot |
| `PoolMetrics.NewMemberFamilies` | metrics/pool.go:39-56 | member families under the pool labels extended by "ip" and "port", the failure family one label more, with the corrected status declaration |
| `PoolMetrics.MemberPopulateWrites` | metrics/pool.go:64-78 | `status` is always written under the pool labels plus address and port, 1 exactly for an "UP" member; a failure series with the cause as last label only for a present cause; the network counters under the same labels |
| `PoolMetrics.MemberPopulateKeepsDeclares` | metrics/pool.go:64-78 | with the corrected declaration a member's writes keep every family consistent |
| `PoolMetrics.MemberPopulateSameOutside` | metrics/pool.go:64-78 | a member's writes stay under the labels of its pool |
| `PoolMetrics.MemberStatusAsWrittenInconsistent` | metrics/pool.go:43-48 | as written, `pool_member_status` cannot hold the series a member writes to it |
| `PoolMetrics.MemberResetClears` | metrics/pool.go:58-62 | a reset member group keeps its declarations and holds nothing |
| `PoolMetrics.PopulateMembersKeepsDeclares` | metrics/pool.go:153-155 | the member loop keeps every member family consistent |
| `PoolMetrics.PopulateMembersSameOutside` | metrics/pool.go:153-155 | the members of one pool write only series labelled with that pool's name and id |
| `PoolMetrics.PopulateMembersStatus` | metrics/pool.go:153-155 | every joined member has a status series under the pool labels plus its address and port; unless a later member shares them, it is 1 exactly when that member is "UP" |
| `PoolMetrics.NewPoolFamilies` | metrics/pool.go:80-116 | the families of `NewPoolMetrics` with their names, each declaring its labels (with the corrected status declarations) |
| `PoolMetrics.PopulateWrites` | metrics/pool.go:127-156 | `status` is 1 exactly for an "UP" pool; the info series carries the member-group port in decimal and the algorithm; `memberCount` is the number of members in the status, not of joined members; `memberMin` and the alarm only when present; the member group sees every joined member, in order |
| `PoolMetrics.PopulateSameOutside` | metrics/pool.go:127-156 | populating one pool, members included, touches only series labelled with its name and id |
| `PoolMetrics.PopulateKeepsDeclares` | metrics/pool.go:127-156 | with the corrected declarations every write has its family's arity |
| `PoolMetrics.StatusAsWrittenInconsistent` | metrics/pool.go:85-90 | as written, `pool_status` cannot hold the series `Populate` writes to it |
| `PoolMetrics.ResetClears` | metrics/pool.go:118-125 | a reset keeps every declaration and clears every family except `memberCount`, which keeps all its series, those of pools gone since included |
| `PoolMetrics.MemberMetrics.constructor` | metrics/pool.go:39-56 | the new group declares the pool labels plus "ip" and "port", and its families are `NewMemberFamilies` |
| `PoolMetrics.MemberMetrics.Reset` | metrics/pool.go:58-62 | the fields become the reset snapshot |
| `PoolMetrics.MemberMetrics.Populate` | metrics/pool.go:64-78 | the fields become the populated snapshot |
| `PoolMetrics.PoolMetrics.constructor` | metrics/pool.go:80-116 | the new object's families are `NewPoolFamilies`, with a fresh member group |
| `PoolMetrics.PoolMetrics.Reset` | metrics/pool.go:118-125 | the fields, member group included, become the reset snapshot |
| `PoolMetrics.PoolMetrics.PopulateOwn` | metrics/pool.go:128-151 | the pool's own families become those of the populated snapshot; the member group is untouched |
| `PoolMetrics.PoolMetrics.PopulateMembersOf` | metrics/pool.go:153-155 | the member loop leaves the member group equal to the reference fold over the joined members |
| `PoolMetrics.PoolMetrics.Populate` | metrics/pool.go:127-156 | the fields, member group included, become the populated snapshot |
| `GatewayMetrics.SetEdgesWrites` | metrics/tier.go:110-114 | after the edge loop the family holds its old series plus exactly one series of value 1 per per-node status, labelled with the last segment of the edge path and the HA status; series of no node keep their values |
| `GatewayMetrics.SetEdgesKeepsConsistent` | metrics/tier.go:110-114 | the edge loop keeps the edge family consistent |
| `GatewayMetrics.SetEdgesSameOutside` | metrics/tier.go:110-114 | the edge loop writes only series labelled with the gateway's labels |
| `GatewayMetrics.NewTierFamilies` | metrics/tier.go:47-82 | five families named `kind_info`, `kind_status`, `kind_failure`, `kind_transport` and `kind_edge`, each declaring its labels |
| `GatewayMetrics.PopulateWrites` | metrics/tier.go:92-115 | `info` is 1 under the HA mode; `status` 1 exactly for an "in_sync" state, always written; a failure series only for a present code, printed in decimal with the message or ""; `transport` counts the details; the edge family gains every node's series |
| `GatewayMetrics.PopulateKeepsDeclares` | metrics/tier.go:92-115 | with as many label values as names, populating keeps all five families consistent |
| `GatewayMetrics.PopulateSameOutside` | metrics/tier.go:92-115 | populating one gateway touches only series labelled with that gateway's labels |
| `GatewayMetrics.ResetClears` | metrics/tier.go:84-90 | a reset keeps every declaration and leaves no series |
| `GatewayMetrics.TierMetrics.constructor` | metrics/tier.go:35-82 | the new object's families are `NewTierFamilies` of its kind ("tier0" or "tier1") |
| `GatewayMetrics.TierMetrics.Reset` | metrics/tier.go:84-90 | the fields become the reset snapshot |
| `GatewayMetrics.TierMetrics.Populate` | metrics/tier.go:92-115 | the four gateway-wide writes, then the edge loop: the fields become the populated snapshot |
| `GatewayMetrics.TierMetrics.PopulateGateway` | metrics/tier.go:117-141 | a gateway is populated under its id then its display name, in its HA mode, empty when absent |
| `Certificates.Remainder` | metrics/utils.go:22-24 | after a readable block the trimmed rest the loop goes on with is strictly shorter than the data, so the loop ends |
| `Certificates.ProcessIndices` | metrics/utils.go:21-45 | the entries are numbered consecutively from 0 in blob order |
| `Certificates.ProcessBound` | metrics/utils.go:21-46 | at most one entry per character of the data; empty data gives no entry and no error |
| `Certificates.ProcessNoError` | metrics/utils.go:41-46 | without an error every entry carries an expiry |
| `Certificates.ProcessErrorLast` | metrics/utils.go:25-40 | an error comes with a last entry without expiry, after entries that all have one |
| `Certificates.ProcessExpiry` | metrics/utils.go:18-47 | there is no error exactly when every entry carries an expiry |
| `Certificates.ProcessCertificates` | metrics/utils.go:18-47 | the loop decodes, trims, checks, parses and appends block after block, returning at the first failure with an entry without expiry; its result is exactly the recursive reference |
| `ClusterNodeMetrics.NewInterfaceFamilies` | metrics/node.go:43-118 | the twelve interface families of `NewInterfaceMetrics`, each declaring its labels |
| `ClusterNodeMetrics.InterfaceRecordWrites` | metrics/node.go:290-303 | one interface gives an info series of 1 under its id, admin and link status and decimal MTU, and each of its eleven counters under the node labels plus its id |
| `ClusterNodeMetrics.InterfaceRecordKeepsDeclares` | metrics/node.go:290-303 | one interface's writes keep every interface family consistent |
| `ClusterNodeMetrics.RecordInterfacesKeepsDeclares` | metrics/node.go:289-304 | the interface loop keeps every interface family consistent |
| `ClusterNodeMetrics.RecordInterfacesInfo` | metrics/node.go:289-304 | every interface of the loop has its info series, valued 1 |
| `ClusterNodeMetrics.RecordInterfacesUnshadowed` | metrics/node.go:289-304 | an interface whose id no later interface repeats has each of its counters under the node labels plus its id |
| `ClusterNodeMetrics.InterfaceResetClears` | metrics/node.go:120-133 | after a reset no interface family holds a series, and every declaration stays |
| `ClusterNodeMetrics.RecordFileSystems` | metrics/node.go:245-249 | the filesystem loop writes fs_total and fs_used for every filesystem, in order, labelled by type and file-system name |
| `ClusterNodeMetrics.WriteCertificates` | metrics/node.go:266-269 | the loop over one processed blob writes each entry's expiry under its kind and decimal index, in order |
| `ClusterNodeMetrics.CertWritesDistinct` | metrics/node.go:266-269 | distinct entries of one blob are written under distinct label values, so none overwrites another |
| `ClusterNodeMetrics.CertStageWrites` | metrics/node.go:262-269 | one stage returns the blob's error; when it fails nothing of that blob is recorded; when it succeeds every entry's expiry is recorded under its kind and index |
| `ClusterNodeMetrics.CertStageSameOutside` | metrics/node.go:262-269 | a stage writes only series of its own kind |
| `ClusterNodeMetrics.CertStageKeepsOtherKind` | metrics/node.go:262-287 | a stage of one kind keeps every series of another kind |
| `ClusterNodeMetrics.CertStagesErrors` | metrics/node.go:262-287 | the stages fail exactly when one of the three blobs fails, and then with the error of the first such blob |
| `ClusterNodeMetrics.CertStagesWrites` | metrics/node.go:262-287 | without an error every entry of every blob is recorded under its kind and index: no later stage overwrites an earlier one |
| `ClusterNodeMetrics.CertStageKeepsConsistent` | metrics/node.go:262-269 | a stage keeps the certificate family consistent |
| `ClusterNodeMetrics.CertStagesKeepConsistent` | metrics/node.go:262-287 | the three stages keep the certificate family consistent |
| `ClusterNodeMetrics.NewNodeFamilies` | metrics/node.go:135-217 | the thirteen node families of `NewNodeMetrics`, each declaring its labels |
| `ClusterNodeMetrics.SystemWrites` | metrics/node.go:237-260 | `status` is 1 exactly for a "CONNECTED" node, always written; CPU and uptime written; `version` 1 under the version; the memory families and the certificates untouched |
| `ClusterNodeMetrics.SystemLoad` | metrics/node.go:251-255 | the three load families are written exactly when the load average has three values |
| `ClusterNodeMetrics.SystemFileSystems` | metrics/node.go:245-249 | a filesystem that no later one repeats has both sizes under its type and name |
| `ClusterNodeMetrics.PopulateStages` | metrics/node.go:236-307 | the system part is always written; the certificate stages follow and their error is the one returned; the interfaces are written only when there is none |
| `ClusterNodeMetrics.SystemKeepsDeclares` | metrics/node.go:237-260 | the system part keeps every node family consistent |
| `ClusterNodeMetrics.PopulateKeepsDeclares` | metrics/node.go:236-307 | populating keeps every node and interface family consistent, whichever stage stops it |
| `ClusterNodeMetrics.ResetClears` | metrics/node.go:219-234 | after a reset no node family holds a series, and every declaration stays |
| `ClusterNodeMetrics.InterfaceMetrics.constructor` | metrics/node.go:43-118 | the new object's families are `NewInterfaceFamilies` |
| `ClusterNodeMetrics.InterfaceMetrics.Reset` | metrics/node.go:120-133 | the fields become the reset snapshot |
| `ClusterNodeMetrics.InterfaceMetrics.Record` | metrics/node.go:290-303 | the twelve writes of one interface: the fields become the recorded snapshot |
| `ClusterNodeMetrics.InterfaceMetrics.RecordAll` | metrics/node.go:289-304 | the interface loop: the fields become the reference fold over the interfaces |
| `ClusterNodeMetrics.NodeMetrics.constructor` | metrics/node.go:135-217 | the node families are `NewNodeFamilies`, with a fresh interface object holding `NewInterfaceFamilies` |
| `ClusterNodeMetrics.NodeMetrics.Reset` | metrics/node.go:219-234 | the node families and the interface families become their reset snapshots |
| `ClusterNodeMetrics.NodeMetrics.PopulateSystem` | metrics/node.go:237-260 | the fields become the snapshot after the system part |
| `ClusterNodeMetrics.NodeMetrics.RecordCertificates` | metrics/node.go:262-269 | one stage: only the certificate family changes, to the stage's outcome, and the stage's error is returned |
| `ClusterNodeMetrics.NodeMetrics.PopulateCertificates` | metrics/node.go:262-287 | the three stages, the first error returned at once: only the certificate family changes |
| `ClusterNodeMetrics.NodeMetrics.Populate` | metrics/node.go:236-307 | node and interface families become the reference outcome, and its error is returned |
| `ScrapeRecorder.Fail` | metrics/recorder.go:78-81 | a failing stage sets scrape_error to 1 and returns its error |
| `ScrapeRecorder.ResetEffects` | metrics/recorder.go:62-68 | the reset clears the node, interface, load-balancer, virtual-server and pool families (all of a pool's but its member count) and zeroes scrape_error; the gateway and cluster families and the duration keep the previous scrape's values; every family stays declared |
| `ScrapeRecorder.ClusterStageWrites` | metrics/recorder.go:82-83 | each cluster family holds a series under its status, 1 exactly when it is "STABLE"; every other series of earlier scrapes stays, and nothing else changes |
| `ScrapeRecorder.NodeLoopSticky` | metrics/recorder.go:93-103 | once scrape_error is set in the node loop it stays set |
| `ScrapeRecorder.NodeLoopKeepsDeclares` | metrics/recorder.go:93-103 | the node loop keeps every node and interface family declared |
| `ScrapeRecorder.NodeLoopSplit` | metrics/recorder.go:93-103 | when none of the first nodes fails to be fetched, the loop runs over them and goes on with the rest from what they left |
| `ScrapeRecorder.NodeLoopBreak` | metrics/recorder.go:94-98 | the first node that cannot be fetched ends the loop with scrape_error set, keeping what the earlier nodes wrote; no later node is fetched |
| `ScrapeRecorder.NodePopulateErrorContinues` | metrics/recorder.go:99-102 | a node that is fetched but cannot be populated sets scrape_error, and the loop still goes on with every later node |
| `ScrapeRecorder.NodeLoopClean` | metrics/recorder.go:93-103 | a node loop that ends without the error flag started without it and fetched every node |
| `ScrapeRecorder.PopulateVSsKeepsDeclares` | metrics/recorder.go:121-123 | the virtual-server loop keeps every family declared |
| `ScrapeRecorder.PopulatePoolsKeepsDeclares` | metrics/recorder.go:125-127 | the pool loop keeps every family declared |
| `ScrapeRecorder.LBLoopErrors` | metrics/recorder.go:113-128 | the load-balancer loop fails exactly when some listed record cannot be fetched |
| `ScrapeRecorder.LBLoopFetchesAll` | metrics/recorder.go:113-128 | the load-balancer loop ends without error exactly when every record, one balancer after another, can be fetched |
| `ScrapeRecorder.AllFetchedEach` | metrics/recorder.go:113-118 | fetching every record one after another means each listed record can be fetched |
| `ScrapeRecorder.LBLoopSplit` | metrics/recorder.go:113-128 | when the first records can be fetched, the loop runs over them without an error and goes on with the rest from the families they left |
| `ScrapeRecorder.LBLoopBreak` | metrics/recorder.go:114-118 | the first record that cannot be fetched ends the loop with its error, with the families the earlier balancers left |
| `ScrapeRecorder.LBLoopKeepsDeclares` | metrics/recorder.go:113-128 | the load-balancer loop keeps every family declared |
| `ScrapeRecorder.TierLoopErrors` | metrics/recorder.go:135-142 | a gateway loop fails exactly when some gateway's state cannot be fetched, and then with the error of the first one |
| `ScrapeRecorder.TierLoopKeepsDeclares` | metrics/recorder.go:135-142 | a gateway loop keeps every family declared |
| `ScrapeRecorder.TierStagesErrors` | metrics/recorder.go:130-156 | the gateway stages succeed exactly when both lists can be read and every listed gateway's state can be fetched; a tier-1 failure leaves the tier-0 families untouched |
| `ScrapeRecorder.TierStagesKeepDeclares` | metrics/recorder.go:130-156 | the gateway stages keep every family declared |
| `ScrapeRecorder.NodeStageOnlyNodes` | metrics/recorder.go:85-103 | the node stage changes only the node families and scrape_error; it only ever sets the flag; it keeps the node families declared |
| `ScrapeRecorder.LateStagesIgnoreNodes` | metrics/recorder.go:105-160 | the stages after the node loop do not depend on the node families or on scrape_error |
| `ScrapeRecorder.LateStagesOutcome` | metrics/recorder.go:105-160 | each failure after the node loop sets scrape_error and leaves the duration; success sets the duration and leaves the flag |
| `ScrapeRecorder.LateStagesKeepDeclares` | metrics/recorder.go:105-156 | the stages after the node loop keep every family declared |
| `ScrapeRecorder.NodeFailuresDoNotStopScrape` | metrics/recorder.go:93-160 | node failures never end a scrape: whatever the node stage meets, the error returned and every family outside the node stage are those of the later stages run straight after the cluster stage |
| `ScrapeRecorder.RecordOutcome` | metrics/recorder.go:70-161 | every error returned comes with scrape_error at 1 and the previous duration; without an error the duration is the elapsed time |
| `ScrapeRecorder.RecordErrors` | metrics/recorder.go:70-161 | a scrape returns no error exactly when the cluster status, the load-balancer list, every listed record, both gateway lists and every listed gateway's state can be fetched; node failures play no part |
| `ScrapeRecorder.LBFailureKeepsGateways` | metrics/recorder.go:105-130 | when the load-balancer stage fails, neither gateway kind is recorded and both keep the previous scrape's series |
| `ScrapeRecorder.ClusterFailureStops` | metrics/recorder.go:77-81 | a failed cluster fetch ends the scrape at once with its error: the reset has happened, scrape_error is 1, and nothing else is recorded |
| `ScrapeRecorder.RecordKeepsDeclares` | metrics/recorder.go:70-161 | a scrape keeps every family declared with its label names and of consistent arity |
| `ScrapeRecorder.CollectNodeIds` | metrics/recorder.go:86-92 | the node ids are the online nodes' uuids, then the offline nodes', in order |
| `ScrapeRecorder.RecordNodes` | metrics/recorder.go:93-103 | the node loop on the objects: the node families and the returned flag are those of the reference loop |
| `ScrapeRecorder.PopulateVirtualServers` | metrics/recorder.go:121-123 | the virtual-server loop on the object computes the reference loop |
| `ScrapeRecorder.PopulatePoolsOf` | metrics/recorder.go:125-127 | the pool loop on the object computes the reference loop |
| `ScrapeRecorder.RecordLoadBalancers` | metrics/recorder.go:113-128 | the load-balancer loop on the objects computes the reference loop, error included |
| `ScrapeRecorder.RecordGateways` | metrics/recorder.go:135-156 | a gateway loop on the object computes the reference loop, error included |
| `ScrapeRecorder.RecordTiers` | metrics/recorder.go:130-156 | the tier-1 list and loop, then the tier-0 ones, compute the reference stages |
| `ScrapeRecorder.Recorder.constructor` | metrics/recorder.go:27-59 | the recorder over the new metric objects: both gauges at 0 and both cluster families empty, declaring "status" |
| `ScrapeRecorder.Recorder.Reset` | metrics/recorder.go:62-68 | the state becomes the reset state |
| `ScrapeRecorder.Recorder.MarkFailed` | metrics/recorder.go:79 | only scrape_error changes, to 1 |
| `ScrapeRecorder.Recorder.RecordCluster` | metrics/recorder.go:82-83 | the state becomes the cluster stage's |
| `ScrapeRecorder.Recorder.RecordNodeStage` | metrics/recorder.go:85-103 | the state becomes the node stage's |
| `ScrapeRecorder.Recorder.RecordLBStage` | metrics/recorder.go:105-128 | a list failure sets scrape_error and returns its error; otherwise the balancer, virtual-server and pool families become the loop's, scrape_error is set exactly when the loop fails, and nothing else changes |
| `ScrapeRecorder.Recorder.RecordTierStage` | metrics/recorder.go:130-160 | the gateway families become the stages'; a failure sets scrape_error and keeps the duration, success sets the duration |
| `ScrapeRecorder.Recorder.RecordLateStages` | metrics/recorder.go:105-160 | the state and error become the reference later stages' |
| `ScrapeRecorder.Recorder.RecordMetrics` | metrics/recorder.go:70-161 | the state and the error returned are those of the reference scrape `Record`, whose properties are the lemmas above |
| `ScrapeRecorder.NewRecorder` | metrics/recorder.go:26-60 | a fresh recorder over fresh metric objects of kinds "tier0" and "tier1", both gauges at 0 |
| `Configuration.LevelOf` | config/config.go:34-47 | a level other than info is selected exactly by its own upper-cased name; info is selected exactly when the upper-cased name is none of ERROR, WARN, DEBUG, PANIC and FATAL |
| `Configuration.LevelOfIgnoresCase` | config/config.go:34 | a name and its upper case select the same level |
| `Configuration.LevelNameSelects` | config/config.go:34-47 | every level is selected by its own name |
| `Configuration.LogSettingsOf` | config/config.go:27-47 | JSON output exactly when asked for; otherwise text output whose colours follow `no_color`; the level is the one the configured name selects |
| `Configuration.Anchored` | config/config.go:60 | the compiled pattern is the text inside a non-capturing group anchored at both ends, so that it must match a whole name |
| `Configuration.RegexpOf` | config/config.go:55-66 | succeeds exactly when the anchored pattern compiles, then holding that pattern; otherwise returns the compile error |
| `Configuration.ExporterConfig.constructor` | config/config.go:68-75 | the exporter section as decoded |
| `Configuration.ExporterConfig.Check` | config/config.go:77-95 | an empty path becomes "/metrics" and a port that is not positive becomes 8080, even when a check then fails; a zero interval, then a zero error interval, is refused with its message; the section passes exactly when it ends up usable; a usable section passes unchanged |
| `Configuration.NsxError` | config/config.go:129-143 | the NSX section passes exactly when the URL is given and parses, certificate and key are paired, user name and password are paired, and exactly one way to log in is given; each failure has its own message, checked in the source's order |
| `Configuration.NsxConfig.constructor` | config/config.go:97-110 | the NSX section as decoded, without filters |
| `Configuration.NsxConfig.Check` | config/config.go:112-148 | the error is `NsxError`'s; only `maxRetries` may change, becoming 3 on a pass that asked for 0; after a pass, a password login is needed exactly when a user name is given, and otherwise neither user name nor password is set |
| `Configuration.ConfigError` | config/config.go:156-168 | the file passes exactly when both the NSX and the exporter sections are present, the NSX one checked first; the log section may be missing |
| `Scheduler.Namespace` | main.go:28-31 | never empty: the configured namespace when one is set, otherwise "nsxt" |
| `Scheduler.TraceAlternates` | main.go:47-61 | a run alternates scrapes and sleeps: the k-th scrape is event 2k, and the sleep after it, event 2k + 1, lasts the interval after a success and the error interval after a failure |
| `Scheduler.FirstScrapeAtOnce` | main.go:47-50 | the first scrape runs at once, before any sleep |
| `Scheduler.Run` | main.go:47-61 | the nested loops, inner one broken by a failed scrape, produce exactly the alternating trace of one scrape and one sleep per scrape |

## Behaviour of the code worth knowing

- A certificate blob that fails to decode or parse is not recorded at all. `processCertificates` returns the entries parsed so far, but `NodeMetrics.Populate` returns the error before its write loop (metrics/node.go:262-287). `ClusterNodeMetrics.CertStageWrites` states what the code does.
- `Recorder.Reset` clears only the node, load-balancer, virtual-server and pool families and scrape_error (metrics/recorder.go:62-68). The gateway families, the two cluster families and the duration keep the previous scrape's series, and so do the series of `pool_member`, which `PoolMetrics.Reset` never clears. See `ScrapeRecorder.ResetEffects` and `PoolMetrics.ResetClears`.
- The node memory families (`memTotal`, `memUsed`, `memCache`) are declared and reset but never written (`ClusterNodeMetrics.SystemWrites`).
- In `GetClusterNodeInfo` the errors of the per-interface reads are dropped, because the checks test the list call's error (api/node.go:46-61). An interface whose reads fail still contributes the record the SDK returned.
- The filesystem series are labelled with the `FileSystem` field under the label name "mount" (metrics/node.go:246).
- `VSMetrics.Reset` resets the HTTP pair twice; the second reset changes nothing.
- Negative intervals pass the exporter checks: only zero is refused (config/config.go:88-93).

## Left out

- The NSX SDK clients, REST invocation, `ConvertToGolang` and the retry middleware are not modelled. Every gateway call is a total, possibly-failing function of `NsxGateway.Gateway`, and a conversion failure is an `Err` element of a result list.
- Prometheus registration and exposition are not modelled, nor registry locking or the HTTP listener. A `GaugeVec` is its options and a map; `scrape_error` and `scrape_duration_seconds` are plain numbers, without their options.
- Gauge values are opaque `real`s. The float64 conversions, float32 load averages and Unix-second conversion of expiry times are not modelled.
- Time and randomness are parameters. The scrape's elapsed time is an argument of `RecordMetrics`. The `rand.Intn` draw is an argument of `Retry.ShouldRetry`. Sleeps are events of `Scheduler.Run`.
- Logging, everywhere, is not modelled.
- PEM decoding and X.509 parsing are not modelled. They are the two functions of `Certificates.Codec`, whose only contract is that a decoded block is consumed (`Certificates.Consumes`).
- YAML decoding is not modelled, nor which section's error comes first when several fail, since that depends on key order in the file. The checks of each section are their own members.
- `url.Parse` and `regexp.Compile` are parameters of `NsxConfig.Check` and `RegexpOf`. `NSXHost`'s returned host is not modelled.
- The logrus global setters are not modelled. `LogSettingsOf` returns the formatter and level instead. The `logrus.ParseLevel` override in main.go:37-42 is not modelled, nor the nil `Log` section it dereferences.
- The goroutine, the HTTP listener, kingpin flags, `NewConfig`'s `log.Fatalf` and `NewNSXApi` are not modelled.
- `Scheduler.Run` follows the never-ending loop through finitely many scrapes, given by their outcomes.
- `Pagination.WalkPages` and the list calls require the cursor chain to end within a ghost bound (`ChainEnds`). A server that hands out cursors forever makes the source loop forever, and that case is outside the model.
- Nil dereferences of required fields (`*cLb.Id`, `*cStatus.VirtualServerPath`, the pool's `MemberGroup` and the like) are not modelled as behaviour. Those fields are plain, non-optional fields of the records, so a pool without a member group cannot be expressed. The exceptions are the nil status and nil statistics of the first two findings, whose dereferences are modelled.
- `Text.ToUpper`: upper-cases only the characters whose upper case is ASCII (ASCII letters, dotless i, long s), which is all the level match can tell apart; other characters are kept.
- `Regexp` values are not used anywhere else in the configuration, so no filter matches against them.
- `ScrapeRecorder.NewRecorder`: states validity, the kinds and the two gauges, not every family's options, which are those of the constructors it calls.

## Findings

| source | as written | input that shows it | evidently intended | confidence | as-written member | corrected member |
|---|---|---|---|---|---|---|
| api/load_balancer.go:95-110 | for zero results, several results or a failed conversion, `getLBServiceStatus` returns `nil, err`, where `err` is the nil of the successful call; `getLBServiceStats` (125-140) does the same | a load balancer whose detailed-status call succeeds with an empty result list and whose statistics call succeeds: `GetLBServiceInfo` carries on with a nil status and dereferences it at line 162 | return an error ("not found", "too many results", the conversion's error) | not executed | `LoadBalancerApi.EmptyStatusCrashes` | `LoadBalancerApi.LBInfoCorrects` |
| api/load_balancer.go:125-140 | `getLBServiceStats` returns `nil, nil` in the same three cases; `GetLBServiceInfo` dereferences the nil statistics only in the lookups of its loops (lines 169 and 188) | a load balancer with no virtual server and no pool whose statistics call succeeds with an empty result list: `GetLBServiceInfo` succeeds with nil statistics, which `Populate` dereferences at metrics/load_balancer.go:129 | return an error ("not found", "too many results", the conversion's error) | not executed | `LoadBalancerApi.NilStatsNoChildrenSucceeds` | `LoadBalancerApi.LBInfoCorrects` |
| metrics/load_balancer.go:48-53 | `load_balancer_status` is declared with the label names name, id, status, but `Populate` writes it with two values (line 113) | any load balancer: `WithLabelValues` with 2 values on a family of 3 names | declare name, id, as the file's header comment lists | not executed | `LoadBalancerMetrics.StatusAsWrittenInconsistent` | `LoadBalancerMetrics.PopulateKeepsDeclares` |
| metrics/virtual_server.go:51-56 | `virtual_server_status` is declared with name, id, status but written with two values (line 111) | any virtual server | declare name, id | not executed | `VirtualServerMetrics.StatusAsWrittenInconsistent` | `VirtualServerMetrics.PopulateKeepsDeclares` |
| metrics/pool.go:85-90 | `pool_status` is declared with name, id, status but written with two values (line 140) | any pool | declare name, id | not executed | `PoolMetrics.StatusAsWrittenInconsistent` | `PoolMetrics.PopulateKeepsDeclares` |
| metrics/pool.go:43-48 | `pool_member_status` is declared with name, id, ip, port, status but written with four values (line 76) | any pool member | declare name, id, ip, port | not executed | `PoolMetrics.MemberStatusAsWrittenInconsistent` | `PoolMetrics.MemberPopulateKeepsDeclares` |
