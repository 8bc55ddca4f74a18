# ONOS optical drivers and the Voyager agent, modelled in Dafny

This project models the device drivers that an ONOS controller uses to run a
metro optical network, plus the command builder of the Voyager
OpenConfig agent:

- **OpenROADM ROADM driver** (`metrohaul/openroadm`).
  - A flow rule becomes an OpenROADM cross-connect: an express, add or drop
    link, classified by the device's line ("DEG") ports.
  - Each cross-connect becomes a named ROADM connection. The driver keeps
    these in a per-device connection cache of at most 100 entries.
  - Installing a connection sends three NETCONF edits: the media-channel (MC)
    interfaces, the network-media-channel (NMC) interfaces, and the
    roadm-connection. Removing it sends the matching three deletes in reverse
    order.
  - Reading flow entries rebuilds a flow rule from each cached connection. A
    connection the controller does not know is deleted by name.
  - Port discovery numbers ports from their names, for example `ext-tx3`
    becomes port 303 and `2-5` becomes port 205. It annotates each port with
    its circuit pack and logical connection point.
  - The power and optical-device behaviours are modelled as well.
- **HPN Polatis fibre-switch driver** (REST).
  - Discovery returns a fixed description and one OMS port per listed port
    number.
  - Each flow rule becomes a `{"<in>": <out>}` PATCH of `/connections/`. The
    device's connections read back as flow rules, and rules the controller
    does not know are re-applied.
- **Voyager driver** (`OpenConfigAgent/voyager_driver.c`).
  - Decodes logical-channel ids: voyager × 1000 + side × 100 + port.
  - Maps them to interface and transponder names.
  - Builds the `net …` shell commands that set channel state, frequency and
    VLANs, each followed by `commit`.

## How the model is built

- **Pure parts are functions**: naming, classification, port numbering and
  frequency conversion, each with lemmas.
- **Objects whose fields change are classes**:
  - the connection cache and its per-device registry;
  - the NETCONF session (`Netconf.NetconfDevice`). Its `log` records the
    edits sent. A scripted `replies` sequence gives the device's answers.
  - the Polatis REST device;
  - the ONOS flow-rule service;
  - the Voyager command link.
- **Loops over ports, packs and connections are methods** with invariants.
  Each is proved equal to a specification function (`Outcomes.Collect`,
  `Outcomes.Concat`).

The exact arithmetic is written out:

- Frequencies are whole hertz.
- Java `long` wrap-around, `(int)` casts of doubles, C truncating `/` and
  `%`, and the `uint32_t` to `int` conversion are each spelled out.

## Model

| member | source | states |
|---|---|---|
| RoadmFlowRule.Classify | drivers/metrohaul/src/main/java/org/onosproject/drivers/metrohaul/openroadm/OpenRoadmFlowRule.java:98-112 | line to line is express, client to line is add, line to client is drop, client to client is refused (each as an iff) |
| RoadmFlowRule.FromFlowRule | drivers/metrohaul/src/main/java/org/onosproject/drivers/metrohaul/openroadm/OpenRoadmFlowRule.java:70-113 | succeeds iff all four criteria and an output are present and the ports classify; each missing piece gives its own error; fields come from the rule |
| RoadmFlowRule.SameCrossConnect | drivers/metrohaul/src/main/java/org/onosproject/drivers/metrohaul/openroadm/OpenRoadmFlowRule.java:132-147 | `equals` holds iff the `hashCode` key (ports, signal, signal type, link type) is equal |
| RoadmFlowRule.ClassificationByLinePorts | drivers/metrohaul/src/main/java/org/onosproject/drivers/metrohaul/openroadm/OpenRoadmFlowRule.java:98-112 | two line-port lists that agree on the rule's two ports give the same cross-connect |
| RoadmConnection.Annotation | drivers/metrohaul/src/main/java/org/onosproject/drivers/metrohaul/openroadm/OpenRoadmConnection.java:142-152 | an annotation is present iff its key is in the port's annotations |
| RoadmConnection.BuildConnection | drivers/metrohaul/src/main/java/org/onosproject/drivers/metrohaul/openroadm/OpenRoadmConnection.java:103-301 | the connection is well formed for its link type (which MCs/NMCs exist); name, ports, signal, flow id and priority come from the rule; interface names use the ports' logical connection points and the centre frequency; circuit packs come from the port annotations |
| RoadmConnection.ExpressInterfaceNamesDistinct | drivers/metrohaul/src/main/java/org/onosproject/drivers/metrohaul/openroadm/OpenRoadmConnection.java:135-199 | in an express link with different source and destination connection points, the four interface names are pairwise distinct |
| RoadmConnection.McNameInjective | drivers/metrohaul/src/main/java/org/onosproject/drivers/metrohaul/openroadm/OpenRoadmConnection.java:153-159 | at one frequency, distinct connection points give distinct MC names |
| RoadmConnection.NmcNameInjective | drivers/metrohaul/src/main/java/org/onosproject/drivers/metrohaul/openroadm/OpenRoadmConnection.java:161-167 | at one frequency, distinct connection points give distinct NMC names |
| RoadmConnection.OpenRoadmConnection.constructor | drivers/metrohaul/src/main/java/org/onosproject/drivers/metrohaul/openroadm/OpenRoadmConnection.java:103-133 | the new connection holds exactly the built connection data |
| ConnectionCache.OpenRoadmConnectionCache.constructor | drivers/metrohaul/src/main/java/org/onosproject/drivers/metrohaul/openroadm/OpenRoadmConnectionCache.java:42-44 | a new cache is empty and belongs to its device |
| ConnectionCache.OpenRoadmConnectionCache.Size | drivers/metrohaul/src/main/java/org/onosproject/drivers/metrohaul/openroadm/OpenRoadmConnectionCache.java:58-60 | the number of cached connections |
| ConnectionCache.OpenRoadmConnectionCache.Get | drivers/metrohaul/src/main/java/org/onosproject/drivers/metrohaul/openroadm/OpenRoadmConnectionCache.java:62-68 | null iff no cached connection has the name; otherwise a cached connection of that name |
| ConnectionCache.OpenRoadmConnectionCache.Add | drivers/metrohaul/src/main/java/org/onosproject/drivers/metrohaul/openroadm/OpenRoadmConnectionCache.java:70-72 | the cache gains exactly the connection |
| ConnectionCache.OpenRoadmConnectionCache.Remove | drivers/metrohaul/src/main/java/org/onosproject/drivers/metrohaul/openroadm/OpenRoadmConnectionCache.java:74-76 | every connection with that name leaves the cache and nothing else changes |
| ConnectionCache.CacheRegistry.constructor | drivers/metrohaul/src/main/java/org/onosproject/drivers/metrohaul/openroadm/OpenRoadmConnectionCache.java:47-55 | no device has a cache yet |
| ConnectionCache.CacheRegistry.GetInstance | drivers/metrohaul/src/main/java/org/onosproject/drivers/metrohaul/openroadm/OpenRoadmConnectionCache.java:47-55 | returns the device's existing cache unchanged, or registers a fresh empty one for it; the registry stays one distinct cache per device, and no other device shares the cache returned |
| Netconf.NetconfDevice.constructor | drivers/metrohaul/src/main/java/org/onosproject/drivers/metrohaul/openroadm/OpenRoadmFlowRuleProgrammable.java:994-1009 | a session starts with nothing sent and its scripted replies |
| Netconf.NetconfDevice.EditConfig | drivers/metrohaul/src/main/java/org/onosproject/drivers/metrohaul/openroadm/OpenRoadmFlowRuleProgrammable.java:994-1009 | `editCrossConnect`: the edit is appended to the log and the answer is the device's next reply (false once the script runs out) |
| Netconf.AcceptedMeansAllIssued | drivers/metrohaul/src/main/java/org/onosproject/drivers/metrohaul/openroadm/OpenRoadmFlowRuleProgrammable.java:329-403 | when every step is accepted, all the steps were issued |
| Netconf.SendInOrder | drivers/metrohaul/src/main/java/org/onosproject/drivers/metrohaul/openroadm/OpenRoadmFlowRuleProgrammable.java:329-403 | three edits go out in order until the first refusal; the result is true iff all three were accepted |
| RoadmFlowRuleProgrammable.LinePorts | drivers/metrohaul/src/main/java/org/onosproject/drivers/metrohaul/openroadm/OpenRoadmFlowRuleProgrammable.java:136-149 | a port number is listed iff some port with that number has "DEG" in its logical connection point |
| RoadmFlowRuleProgrammable.DoubleToInt | drivers/metrohaul/src/main/java/org/onosproject/drivers/metrohaul/openroadm/OpenRoadmFlowRuleProgrammable.java:1041-1054 | the Java `(int)` cast of a double: saturates to the `int` range and keeps values inside it |
| RoadmFlowRuleProgrammable.TruncDiv | drivers/metrohaul/src/main/java/org/onosproject/drivers/metrohaul/openroadm/OpenRoadmFlowRuleProgrammable.java:1041-1054 | division truncating toward zero, bracketed on both signs |
| RoadmFlowRuleProgrammable.ToOchSignalMinMax | drivers/metrohaul/src/main/java/org/onosproject/drivers/metrohaul/openroadm/OpenRoadmFlowRuleProgrammable.java:1033-1057 | a signal exists iff the window is 50 or 100 GHz wide; it is DWDM, its spacing equals the width and its slots cover the width |
| RoadmFlowRuleProgrammable.ToOchSignalCenterWidth | drivers/metrohaul/src/main/java/org/onosproject/drivers/metrohaul/openroadm/OpenRoadmFlowRuleProgrammable.java:1059-1086 | equals the min/max conversion of centre ± width/2; defined iff that window is 50 or 100 GHz |
| RoadmFlowRuleProgrammable.CenterWidthRoundTrip | drivers/metrohaul/src/main/java/org/onosproject/drivers/metrohaul/openroadm/OpenRoadmFlowRuleProgrammable.java:1059-1086 | a 50 or 100 GHz channel's centre and width convert back to the same DWDM slot |
| RoadmFlowRuleProgrammable.MinMaxRoundTrip | drivers/metrohaul/src/main/java/org/onosproject/drivers/metrohaul/openroadm/OpenRoadmFlowRuleProgrammable.java:1033-1057 | a channel's media-channel window converts back to the same channel |
| RoadmFlowRuleProgrammable.TruncDivExact | drivers/metrohaul/src/main/java/org/onosproject/drivers/metrohaul/openroadm/OpenRoadmFlowRuleProgrammable.java:1041-1054 | an exact multiple of 50 or 100 GHz divides back to its multiplier |
| RoadmFlowRuleProgrammable.MinMaxRoundsTowardAnchor | drivers/metrohaul/src/main/java/org/onosproject/drivers/metrohaul/openroadm/OpenRoadmFlowRuleProgrammable.java:1033-1057 | an off-grid window snaps to the grid channel next to its middle on the side of the 193.1 THz anchor |
| RoadmFlowRuleProgrammable.ConnectionName | drivers/metrohaul/src/main/java/org/onosproject/drivers/metrohaul/openroadm/OpenRoadmFlowRuleProgrammable.java:284-289 | every connection name is the source NMC name, "-to-", then the destination NMC name (all three link types) |
| RoadmFlowRuleProgrammable.CreatePlan | drivers/metrohaul/src/main/java/org/onosproject/drivers/metrohaul/openroadm/OpenRoadmFlowRuleProgrammable.java:329-403 | installing a connection takes exactly three edits |
| RoadmFlowRuleProgrammable.ReleasePlan | drivers/metrohaul/src/main/java/org/onosproject/drivers/metrohaul/openroadm/OpenRoadmFlowRuleProgrammable.java:665-918 | removing a connection takes exactly three edits |
| RoadmFlowRuleProgrammable.ReleaseUndoesCreate | drivers/metrohaul/src/main/java/org/onosproject/drivers/metrohaul/openroadm/OpenRoadmFlowRuleProgrammable.java:665-918 | the i-th delete removes exactly what the (2-i)-th create made; creates never delete and deletes only delete |
| RoadmFlowRuleProgrammable.DeleteByNamePlan | drivers/metrohaul/src/main/java/org/onosproject/drivers/metrohaul/openroadm/OpenRoadmFlowRuleProgrammable.java:922-990 | a name without "-to-" is refused; a valid one gives three deletes, the connection first |
| RoadmFlowRuleProgrammable.DeleteByNameNeedsSeparator | drivers/metrohaul/src/main/java/org/onosproject/drivers/metrohaul/openroadm/OpenRoadmFlowRuleProgrammable.java:929-931 | a name without "-to-" is refused as lacking a second NMC |
| RoadmFlowRuleProgrammable.DegreeNmcLacksSrg | drivers/metrohaul/src/main/java/org/onosproject/drivers/metrohaul/openroadm/OpenRoadmFlowRuleProgrammable.java:972-981 | an NMC name built on a degree port never contains "SRG", so deleting by name keeps its MC |
| RoadmFlowRuleProgrammable.DeleteByNameOfPair | drivers/metrohaul/src/main/java/org/onosproject/drivers/metrohaul/openroadm/OpenRoadmFlowRuleProgrammable.java:922-990 | splitting "a-to-b" recovers both NMC names and plans their deletes |
| RoadmFlowRuleProgrammable.ReleaseOfBuilt | drivers/metrohaul/src/main/java/org/onosproject/drivers/metrohaul/openroadm/OpenRoadmFlowRuleProgrammable.java:665-918 | releasing a built connection deletes the connection, then both NMCs, then the MCs on degree ports |
| RoadmFlowRuleProgrammable.SideMcsAreDegreeMcs | drivers/metrohaul/src/main/java/org/onosproject/drivers/metrohaul/openroadm/OpenRoadmFlowRuleProgrammable.java:968-981 | the MC names derived from the NMC names are exactly those of the degree sides |
| RoadmFlowRuleProgrammable.DeleteByNameMatchesRelease | drivers/metrohaul/src/main/java/org/onosproject/drivers/metrohaul/openroadm/OpenRoadmFlowRuleProgrammable.java:922-990 | deleting by a connection's name sends the same three edits as deleting the cached connection |
| RoadmFlowRuleProgrammable.BuiltRule | drivers/metrohaul/src/main/java/org/onosproject/drivers/metrohaul/openroadm/OpenRoadmFlowRuleProgrammable.java:214-231 | `buildFlowrule` of a cached connection succeeds iff the source NMC's centre and width convert to a channel; the rule is on the device, permanent, with the connection's flow id, priority, in port, fixed-grid type, that channel as match and lambda, and the connection's out port as output |
| RoadmFlowRuleProgrammable.ReadBackReproducesRule | drivers/metrohaul/src/main/java/org/onosproject/drivers/metrohaul/openroadm/OpenRoadmFlowRuleProgrammable.java:214-231 | the rule read back from a connection's data is the same cross-connect as the rule it was built from, with the same id and priority |
| RoadmFlowRuleProgrammable.UnknownPortOf | drivers/metrohaul/src/main/java/org/onosproject/drivers/metrohaul/openroadm/OpenRoadmFlowRuleProgrammable.java:280-288 | the rule port that `deviceService.getPort` would not find: the in port first, then the out port; none iff both are known |
| RoadmFlowRuleProgrammable.EditConfigAddConnection | drivers/metrohaul/src/main/java/org/onosproject/drivers/metrohaul/openroadm/OpenRoadmFlowRuleProgrammable.java:244-300 | over 100 cached connections nothing is sent and the result is false; a port the device does not know is a failure naming it, with nothing sent; otherwise the three create edits go out in order until one is refused, the result is true iff all were accepted, and only then the new connection is cached |
| RoadmFlowRuleProgrammable.Release | drivers/metrohaul/src/main/java/org/onosproject/drivers/metrohaul/openroadm/OpenRoadmFlowRuleProgrammable.java:665-918 | the three delete edits go out until one is refused; an express link leaves the cache only if all succeed, add and drop links when the first succeeds |
| RoadmFlowRuleProgrammable.EditConfigDeleteConnection | drivers/metrohaul/src/main/java/org/onosproject/drivers/metrohaul/openroadm/OpenRoadmFlowRuleProgrammable.java:647-918 | a port the device does not know is a failure naming it; an uncached express link is a failure naming the connection, an uncached add or drop link gives false, and neither sends anything; otherwise the cached connection of the rule's name is released, the result being true iff all three deletes were accepted, and the cache loses the name as `Release` states |
| RoadmFlowRuleProgrammable.EditConfigDeleteConnectionByName | drivers/metrohaul/src/main/java/org/onosproject/drivers/metrohaul/openroadm/OpenRoadmFlowRuleProgrammable.java:922-990 | a malformed name sends nothing and reports why; otherwise the planned deletes go out until one is refused |
| RoadmFlowRuleProgrammable.Known | drivers/metrohaul/src/main/java/org/onosproject/drivers/metrohaul/openroadm/OpenRoadmFlowRuleProgrammable.java:157-183 | the fetched names that are cached, in order |
| RoadmFlowRuleProgrammable.ReadPlan | drivers/metrohaul/src/main/java/org/onosproject/drivers/metrohaul/openroadm/OpenRoadmFlowRuleProgrammable.java:195-208 | a read sends deletes only for a named connection that is not cached, exactly its delete-by-name plan, whose first edit deletes the roadm-connection of that name |
| RoadmFlowRuleProgrammable.ReadPlans | drivers/metrohaul/src/main/java/org/onosproject/drivers/metrohaul/openroadm/OpenRoadmFlowRuleProgrammable.java:78-86 | one plan per fetched connection |
| RoadmFlowRuleProgrammable.SendIssues | drivers/metrohaul/src/main/java/org/onosproject/drivers/metrohaul/openroadm/OpenRoadmFlowRuleProgrammable.java:994-1009 | sending a plan issues its edits in order up to and including the first refusal and consumes one answer per edit issued |
| RoadmFlowRuleProgrammable.ConsumeTwice | drivers/metrohaul/src/main/java/org/onosproject/drivers/metrohaul/openroadm/OpenRoadmFlowRuleProgrammable.java:994-1009 | answers consumed in two steps are the answers consumed at once |
| RoadmFlowRuleProgrammable.ReadRunConsumes | drivers/metrohaul/src/main/java/org/onosproject/drivers/metrohaul/openroadm/OpenRoadmFlowRuleProgrammable.java:78-86 | after any number of reads the log only grows, and one scripted answer is consumed per edit sent |
| RoadmFlowRuleProgrammable.ReadSendsOnlyDeletes | drivers/metrohaul/src/main/java/org/onosproject/drivers/metrohaul/openroadm/OpenRoadmFlowRuleProgrammable.java:78-86 | when every plan holds only deletes, reading sends nothing but deletes |
| RoadmFlowRuleProgrammable.CachedReadsSendNothing | drivers/metrohaul/src/main/java/org/onosproject/drivers/metrohaul/openroadm/OpenRoadmFlowRuleProgrammable.java:78-86 | reading only nameless or cached connections sends nothing and consumes no answer |
| RoadmFlowRuleProgrammable.ReadRunKeeps | drivers/metrohaul/src/main/java/org/onosproject/drivers/metrohaul/openroadm/OpenRoadmFlowRuleProgrammable.java:78-86 | an edit sent by the first m reads is still in the log after n >= m reads |
| RoadmFlowRuleProgrammable.PlanHeadsSent | drivers/metrohaul/src/main/java/org/onosproject/drivers/metrohaul/openroadm/OpenRoadmFlowRuleProgrammable.java:204-208 | every unknown connection read is deleted by name: its roadm-connection delete is in the log |
| RoadmFlowRuleProgrammable.ReadOutcomeFails | drivers/metrohaul/src/main/java/org/onosproject/drivers/metrohaul/openroadm/OpenRoadmFlowRuleProgrammable.java:195-231 | a read that fails concerns a named connection that need not go through, an unknown one failing only on a malformed name, and it sends nothing |
| RoadmFlowRuleProgrammable.ReadOutcomePasses | drivers/metrohaul/src/main/java/org/onosproject/drivers/metrohaul/openroadm/OpenRoadmFlowRuleProgrammable.java:195-231 | a read that succeeds concerns a connection that may go through, and yields a rule only for a cached name, that rule being rebuilt from a cached connection of that name |
| RoadmFlowRuleProgrammable.ReadConnection | drivers/metrohaul/src/main/java/org/onosproject/drivers/metrohaul/openroadm/OpenRoadmFlowRuleProgrammable.java:192-231 | `buildFlowrule`: the device state afterwards is its state before with the read's plan sent; a nameless connection gives no rule; an unknown one gives none (or fails on a malformed name) and is deleted by name; a cached one gives the rule rebuilt from a cached connection of its name, or that rebuild's failure |
| RoadmFlowRuleProgrammable.ReadsAsSnoc | drivers/metrohaul/src/main/java/org/onosproject/drivers/metrohaul/openroadm/OpenRoadmFlowRuleProgrammable.java:78-86 | appending a result does not change what the first n results say |
| RoadmFlowRuleProgrammable.Rules | drivers/metrohaul/src/main/java/org/onosproject/drivers/metrohaul/openroadm/OpenRoadmFlowRuleProgrammable.java:78-86 | the rules collected from n reads are at most n |
| RoadmFlowRuleProgrammable.RulesSnoc | drivers/metrohaul/src/main/java/org/onosproject/drivers/metrohaul/openroadm/OpenRoadmFlowRuleProgrammable.java:78-86 | appending a result does not change the rules of the first n reads |
| RoadmFlowRuleProgrammable.ReadsAsPass | drivers/metrohaul/src/main/java/org/onosproject/drivers/metrohaul/openroadm/OpenRoadmFlowRuleProgrammable.java:78-86 | every read recorded as passed concerns a connection that may pass and yields only a rule rebuilt from its cached name |
| RoadmFlowRuleProgrammable.YieldedRebuilt | drivers/metrohaul/src/main/java/org/onosproject/drivers/metrohaul/openroadm/OpenRoadmFlowRuleProgrammable.java:78-86 | the collected rules are, one to one and in order, the rules rebuilt from the fetched names that are cached |
| RoadmFlowRuleProgrammable.RebuiltAllSnoc | drivers/metrohaul/src/main/java/org/onosproject/drivers/metrohaul/openroadm/OpenRoadmFlowRuleProgrammable.java:78-86 | a rebuilt rule for one more cached name extends the rebuilt list |
| RoadmFlowRuleProgrammable.ReadNext | drivers/metrohaul/src/main/java/org/onosproject/drivers/metrohaul/openroadm/OpenRoadmFlowRuleProgrammable.java:78-86 | one step of the stream: a failing read leaves the device as it was; a passing one sends its plan, records its outcome and collects its rule |
| RoadmFlowRuleProgrammable.GetFlowEntries | drivers/metrohaul/src/main/java/org/onosproject/drivers/metrohaul/openroadm/OpenRoadmFlowRuleProgrammable.java:78-86 | reads the fetched connections in order, stopping at the first failure; the device afterwards has received exactly the delete-by-name plans of the unknown connections read; on success the entries are the rules rebuilt from every cached connection, in fetch order; a failure names the read that failed |
| RoadmDeviceDescription.WrapLong | drivers/metrohaul/src/main/java/org/onosproject/drivers/metrohaul/openroadm/OpenRoadmDeviceDescription.java:474-494 | Java `long` wrap-around: in range, congruent modulo 2^64, identity inside the range |
| RoadmDeviceDescription.FamilyOf | drivers/metrohaul/src/main/java/org/onosproject/drivers/metrohaul/openroadm/OpenRoadmDeviceDescription.java:481-490 | the family found is a prefix of the name; none means no family prefix starts it |
| RoadmDeviceDescription.PortNumberOf | drivers/metrohaul/src/main/java/org/onosproject/drivers/metrohaul/openroadm/OpenRoadmDeviceDescription.java:474-494 | a port number, when there is one, is a `long` |
| RoadmDeviceDescription.RenderedNumber | drivers/metrohaul/src/main/java/org/onosproject/drivers/metrohaul/openroadm/OpenRoadmDeviceDescription.java:474-494 | "ext-tx"/"ext-rx"/"int-tx"/"int-rx" + n is numbered 300/400/500/600 + n, and "a-b" is numbered a × 100 + b (wrapped to a `long`) |
| RoadmDeviceDescription.CanonicalNamesNumberApart | drivers/metrohaul/src/main/java/org/onosproject/drivers/metrohaul/openroadm/OpenRoadmDeviceDescription.java:474-494 | distinct names with index and slot below 100 and shelves outside 3 to 6 get distinct port numbers |
| RoadmDeviceDescription.DashedShelfMeetsFamily | drivers/metrohaul/src/main/java/org/onosproject/drivers/metrohaul/openroadm/OpenRoadmDeviceDescription.java:481-494 | "3-1" and "ext-tx1" both become port 301: shelves 3 to 6 collide with the families |
| RoadmDeviceDescription.UndashedStrangerFails | drivers/metrohaul/src/main/java/org/onosproject/drivers/metrohaul/openroadm/OpenRoadmDeviceDescription.java:491-494 | a name of no family and with no dash cannot be numbered |
| RoadmDeviceDescription.PortAnnotations | drivers/metrohaul/src/main/java/org/onosproject/drivers/metrohaul/openroadm/OpenRoadmDeviceDescription.java:462-470 | exactly the circuit-pack, port-name and logical-connection-point annotations, with their values |
| RoadmDeviceDescription.ParsePortComponent | drivers/metrohaul/src/main/java/org/onosproject/drivers/metrohaul/openroadm/OpenRoadmDeviceDescription.java:460-519 | fails iff the name has no number; describes a port iff it is "roadm-external"; numbered by its name, enabled, annotated; OCh (ODU4, tunable, 50 GHz) iff its wavelength type is "wavelength", otherwise OMS over the band |
| RoadmDeviceDescription.PortOutcomes | drivers/metrohaul/src/main/java/org/onosproject/drivers/metrohaul/openroadm/OpenRoadmDeviceDescription.java:442-451 | one parse result per port, in document order |
| RoadmDeviceDescription.ParsePorts | drivers/metrohaul/src/main/java/org/onosproject/drivers/metrohaul/openroadm/OpenRoadmDeviceDescription.java:442-451 | the loop's result is the ports' descriptions in order, stopping at the first error |
| RoadmDeviceDescription.PackOutcomes | drivers/metrohaul/src/main/java/org/onosproject/drivers/metrohaul/openroadm/OpenRoadmDeviceDescription.java:419-429 | one port list per circuit pack, in document order |
| RoadmDeviceDescription.ParseCircuitPacks | drivers/metrohaul/src/main/java/org/onosproject/drivers/metrohaul/openroadm/OpenRoadmDeviceDescription.java:419-429 | the loop's result is the packs' port lists concatenated, stopping at the first error |
| RoadmDeviceDescription.PackMeaning | drivers/metrohaul/src/main/java/org/onosproject/drivers/metrohaul/openroadm/OpenRoadmDeviceDescription.java:442-451 | a pack parses iff all its ports are numbered, and then lists exactly their descriptions |
| RoadmDeviceDescription.DiscoveryMeaning | drivers/metrohaul/src/main/java/org/onosproject/drivers/metrohaul/openroadm/OpenRoadmDeviceDescription.java:419-451 | discovery succeeds iff every port of every pack is numbered, and then lists exactly the descriptions of the external ports |
| RoadmDeviceDescription.DiscoverPortDetails | drivers/metrohaul/src/main/java/org/onosproject/drivers/metrohaul/openroadm/OpenRoadmDeviceDescription.java:385-410 | no session or any error gives no ports; otherwise all packs' ports; every port carries a logical connection point |
| RoadmDeviceDescription.Location | drivers/metrohaul/src/main/java/org/onosproject/drivers/metrohaul/openroadm/OpenRoadmDeviceDescription.java:245-357 | both coordinates, or none when either is missing |
| RoadmDeviceDescription.DiscoverDeviceDetails | drivers/metrohaul/src/main/java/org/onosproject/drivers/metrohaul/openroadm/OpenRoadmDeviceDescription.java:245-357 | an unregistered device has no description; otherwise a ROADM whose fields default to "not loaded", and which exists iff the node number reads as a `long` |
| RoadmDeviceDescription.ChassisFromNodeNumber | drivers/metrohaul/src/main/java/org/onosproject/drivers/metrohaul/openroadm/OpenRoadmDeviceDescription.java:245-357 | a decimal node number becomes the chassis id |
| Descriptions.BandOmsPort | drivers/metrohaul/src/main/java/org/onosproject/drivers/metrohaul/openroadm/OpenRoadmDeviceDescription.java:511-515 | an enabled OMS port with the given number and annotations, over the whole band at 50 GHz spacing: 96 channels whose edges lie on the grid anchored at 193.1 THz |
| Descriptions.AsPort | drivers/metrohaul/src/main/java/org/onosproject/drivers/metrohaul/openroadm/OpenRoadmDeviceDescription.java:460-519 | the port ONOS keeps has the description's number and annotations |
| RoadmPowerConfig.TaggedPorts | drivers/metrohaul/src/main/java/org/onosproject/drivers/metrohaul/openroadm/OpenRoadmPowerConfig.java:62-83 | fails iff some port lacks a logical connection point (and names it); otherwise lists exactly the ports whose point contains the tag |
| RoadmPowerConfig.RangeIfTagged | drivers/metrohaul/src/main/java/org/onosproject/drivers/metrohaul/openroadm/OpenRoadmPowerConfig.java:79-82 | over a device whose ports all have a logical connection point, the given range exactly when some port of that number carries the tag, none otherwise; a failure otherwise |
| RoadmPowerConfig.TargetPowerRange | drivers/metrohaul/src/main/java/org/onosproject/drivers/metrohaul/openroadm/OpenRoadmPowerConfig.java:62-83 | fails iff some port lacks a logical connection point; otherwise -60 to 60 dBm iff some port of that number is marked "TX", none otherwise |
| RoadmPowerConfig.InputPowerRange | drivers/metrohaul/src/main/java/org/onosproject/drivers/metrohaul/openroadm/OpenRoadmPowerConfig.java:86-107 | fails iff some port lacks a logical connection point; otherwise -60 to 60 dBm iff some port of that number is marked "RX", none otherwise |
| RoadmPowerConfig.TargetPower | drivers/metrohaul/src/main/java/org/onosproject/drivers/metrohaul/openroadm/OpenRoadmPowerConfig.java:43-45 | a reading is always present, and it is 0 dBm |
| RoadmPowerConfig.CurrentPower | drivers/metrohaul/src/main/java/org/onosproject/drivers/metrohaul/openroadm/OpenRoadmPowerConfig.java:57-59 | a reading is always present, 0 dBm, the same as the target power |
| RoadmOpticalDevice.PortIs | drivers/metrohaul/src/main/java/org/onosproject/drivers/metrohaul/openroadm/OpenRoadmOpticalDevice.java:62-76 | a port is of a class iff that is its own class and the class is OMS or OCh |
| RoadmOpticalDevice.TypedPortOf | drivers/metrohaul/src/main/java/org/onosproject/drivers/metrohaul/openroadm/OpenRoadmOpticalDevice.java:62-76 | a discovered port keeps its description's type, number and annotations |
| RoadmOpticalDevice.DiscoveredPortsRecognised | drivers/metrohaul/src/main/java/org/onosproject/drivers/metrohaul/openroadm/OpenRoadmOpticalDevice.java:62-76 | every discovered port is recognised as exactly its own class |
| RoadmOpticalDevice.ElectricalNeverRecognised | drivers/metrohaul/src/main/java/org/onosproject/drivers/metrohaul/openroadm/OpenRoadmOpticalDevice.java:62-76 | client and OTU ports are never recognised as any class |
| RoadmOpticalDevice.PortAs | drivers/metrohaul/src/main/java/org/onosproject/drivers/metrohaul/openroadm/OpenRoadmOpticalDevice.java:79-81 | no port is ever converted to any class |
| RoadmOpticalDevice.ThePort | drivers/metrohaul/src/main/java/org/onosproject/drivers/metrohaul/openroadm/OpenRoadmOpticalDevice.java:83-85 | the port is returned unchanged, type and description |
| Net.GetCriterion | drivers/metrohaul/src/main/java/org/onosproject/drivers/metrohaul/openroadm/OpenRoadmFlowRule.java:75-85 | a criterion of the type is found iff the selector has one, and it is one of them |
| Net.FirstOutput | drivers/metrohaul/src/main/java/org/onosproject/drivers/metrohaul/openroadm/OpenRoadmFlowRule.java:87-94 | an output port is found iff the treatment has an output instruction, and it is one of them |
| Net.LookupPort | drivers/metrohaul/src/main/java/org/onosproject/drivers/metrohaul/openroadm/OpenRoadmFlowRuleProgrammable.java:280-281 | a port is found iff the device has one of that number, and it is one of them |
| Net.CentralFrequency | drivers/metrohaul/src/main/java/org/onosproject/drivers/metrohaul/openroadm/OpenRoadmFlowRuleProgrammable.java:282 | the centre lies multiplier × spacing from the 193.1 THz anchor |
| Net.FormatTHz | drivers/metrohaul/src/main/java/org/onosproject/drivers/metrohaul/openroadm/OpenRoadmFlowRuleProgrammable.java:284-289 | the THz text used in names is numeric (digits, one point, optional sign) and at least three characters long |
| PolatisDiscovery.DiscoverDeviceDetails | drivers/hpnpolatis/src/main/java/org.onosproject.drivers.hpnpolatis/HpnPolatisDeviceDiscovery.java:61-77 | always a fibre switch from "HPN", hardware and software "0.1", serial and chassis "1111", no annotations |
| PolatisDiscovery.ParsePort | drivers/hpnpolatis/src/main/java/org.onosproject.drivers.hpnpolatis/HpnPolatisDeviceDiscovery.java:113-126 | an enabled OMS port over the band, numbered n and named "port-n" |
| PolatisDiscovery.PortNameRoundTrip | drivers/hpnpolatis/src/main/java/org.onosproject.drivers.hpnpolatis/HpnPolatisDeviceDiscovery.java:113-126 | the name after "port-" reads back as the port's number |
| PolatisDiscovery.PortNamesDistinct | drivers/hpnpolatis/src/main/java/org.onosproject.drivers.hpnpolatis/HpnPolatisDeviceDiscovery.java:113-126 | two ports share a name iff they share a number |
| PolatisDiscovery.ParsePorts | drivers/hpnpolatis/src/main/java/org.onosproject.drivers.hpnpolatis/HpnPolatisDeviceDiscovery.java:96-111 | the input ports' descriptions, then the output ports', each in the device's order |
| PolatisDiscovery.ParsedPortsOrder | drivers/hpnpolatis/src/main/java/org.onosproject.drivers.hpnpolatis/HpnPolatisDeviceDiscovery.java:96-111 | position i holds input i, position inputs + j holds output j |
| PolatisDiscovery.DiscoverPortDetails | drivers/hpnpolatis/src/main/java/org.onosproject.drivers.hpnpolatis/HpnPolatisDeviceDiscovery.java:80-94 | an unreadable reply gives no ports; a missing list is an error naming its key; when both lists are present the result is the OMS ports of the input numbers followed by those of the output numbers |
| PolatisFlowRules.Wrap32 | drivers/hpnpolatis/src/main/java/org.onosproject.drivers.hpnpolatis/HpnPolatisFlowRuleProgrammable.java:122 | the Java `(int)` cast of a `long`: congruent modulo 2^32, identity inside the `int` range |
| PolatisFlowRules.DeviceRule | drivers/hpnpolatis/src/main/java/org.onosproject.drivers.hpnpolatis/HpnPolatisFlowRuleProgrammable.java:196-213 | a permanent rule of the device at the default priority, matching the in port and outputting to the out port |
| PolatisFlowRules.FlowEntriesFromDevice | drivers/hpnpolatis/src/main/java/org.onosproject.drivers.hpnpolatis/HpnPolatisFlowRuleProgrammable.java:183-222 | an unreadable reply gives no entries; otherwise the loop gives one rule per connection, stopping at the first field that is not a number |
| PolatisFlowRules.DeviceRulesMeaning | drivers/hpnpolatis/src/main/java/org.onosproject.drivers.hpnpolatis/HpnPolatisFlowRuleProgrammable.java:183-222 | reading succeeds iff every field is a number, and then rule i connects field i to value i |
| PolatisFlowRules.FlowRuleService.constructor | drivers/hpnpolatis/src/main/java/org.onosproject.drivers.hpnpolatis/HpnPolatisFlowRuleProgrammable.java:57-58 | nothing applied yet |
| PolatisFlowRules.FlowRuleService.ApplyFlowRules | drivers/hpnpolatis/src/main/java/org.onosproject.drivers.hpnpolatis/HpnPolatisFlowRuleProgrammable.java:75-79 | the rule is appended to what was applied |
| PolatisFlowRules.IdentityOf | drivers/hpnpolatis/src/main/java/org.onosproject.drivers.hpnpolatis/HpnPolatisFlowRuleProgrammable.java:64-73 | the identity ONOS compares rules by: device, priority and the set of selector criteria |
| PolatisFlowRules.FindDiscrepancies | drivers/hpnpolatis/src/main/java/org.onosproject.drivers.hpnpolatis/HpnPolatisFlowRuleProgrammable.java:64-73 | keys are exactly the identities of the device's entries; each key holds the first entry with that identity; it is marked known iff the controller holds a rule with that identity |
| PolatisFlowRules.KeptFirstGrows | drivers/hpnpolatis/src/main/java/org.onosproject.drivers.hpnpolatis/HpnPolatisFlowRuleProgrammable.java:64-73 | the map of first entries extends by one entry at a time |
| PolatisFlowRules.MarkHeld | drivers/hpnpolatis/src/main/java/org.onosproject.drivers.hpnpolatis/HpnPolatisFlowRuleProgrammable.java:67-72 | the entry's key is put with the first entry of its identity, marked true iff the controller holds a rule of that identity; no other key changes |
| PolatisFlowRules.TalliedGrows | drivers/hpnpolatis/src/main/java/org.onosproject.drivers.hpnpolatis/HpnPolatisFlowRuleProgrammable.java:66-73 | one pass of the outer loop keeps the map exact: keys are the identities seen, each with its first entry, marked iff held |
| PolatisFlowRules.FirstsKept | drivers/hpnpolatis/src/main/java/org.onosproject.drivers.hpnpolatis/HpnPolatisFlowRuleProgrammable.java:64-73 | every entry that is the first of its identity is the entry its key keeps |
| PolatisFlowRules.ApplyUnknown | drivers/hpnpolatis/src/main/java/org.onosproject.drivers.hpnpolatis/HpnPolatisFlowRuleProgrammable.java:75-79 | appends to what was applied exactly the entries of the keys marked unknown, each once, no two with the same identity |
| PolatisFlowRules.GetFlowEntries | drivers/hpnpolatis/src/main/java/org.onosproject.drivers.hpnpolatis/HpnPolatisFlowRuleProgrammable.java:55-88 | returns the device's entries; re-applies exactly the first entry of each identity the controller does not hold, each once and no two alike; applies nothing on failure |
| PolatisFlowRules.RestDevice.constructor | drivers/hpnpolatis/src/main/java/org.onosproject.drivers.hpnpolatis/HpnPolatisFlowRuleProgrammable.java:124-125 | no PATCH sent yet |
| PolatisFlowRules.RestDevice.Patch | drivers/hpnpolatis/src/main/java/org.onosproject.drivers.hpnpolatis/HpnPolatisFlowRuleProgrammable.java:124-125 | the body is appended to the PATCHes sent |
| PolatisFlowRules.RuleBody | drivers/hpnpolatis/src/main/java/org.onosproject.drivers.hpnpolatis/HpnPolatisFlowRuleProgrammable.java:110-122 | a body exists iff the rule has an in port and an output; its key is the in port's name and its value is the output cast to `int`; a missing port is `MissingPort` |
| PolatisFlowRules.RuleBodyReadsBack | drivers/hpnpolatis/src/main/java/org.onosproject.drivers.hpnpolatis/HpnPolatisFlowRuleProgrammable.java:110-122 | the key of a built body parses back as the rule's in port |
| PolatisFlowRules.ApplyStep | drivers/hpnpolatis/src/main/java/org.onosproject.drivers.hpnpolatis/HpnPolatisFlowRuleProgrammable.java:103-108 | an optical-signal rule is skipped; any other rule is PATCHed with its body, or fails as `RuleBody` does |
| PolatisFlowRules.RemoveStep | drivers/hpnpolatis/src/main/java/org.onosproject.drivers.hpnpolatis/HpnPolatisFlowRuleProgrammable.java:147-162 | the removal body of a rule, or `MissingPort` when it has no in port or output |
| PolatisFlowRules.ConnectionRule | drivers/hpnpolatis/src/main/java/org.onosproject.drivers.hpnpolatis/HpnPolatisFlowRuleProgrammable.java:196-213 | a field name that is not a number is `BadPortName`; otherwise the device rule from that port to the value |
| PolatisFlowRules.Steps | drivers/hpnpolatis/src/main/java/org.onosproject.drivers.hpnpolatis/HpnPolatisFlowRuleProgrammable.java:98-130 | one step per rule, in order |
| PolatisFlowRules.SendSteps | drivers/hpnpolatis/src/main/java/org.onosproject.drivers.hpnpolatis/HpnPolatisFlowRuleProgrammable.java:98-132 | the loop PATCHes each step's body in order until a rule without ports fails, and returns the rules when none does |
| PolatisFlowRules.ApplyFlowRules | drivers/hpnpolatis/src/main/java/org.onosproject.drivers.hpnpolatis/HpnPolatisFlowRuleProgrammable.java:91-133 | PATCHes `{"<in>": <out>}` for each rule that has no optical-signal criterion, in order |
| PolatisFlowRules.RemoveFlowRules | drivers/hpnpolatis/src/main/java/org.onosproject.drivers.hpnpolatis/HpnPolatisFlowRuleProgrammable.java:136-177 | PATCHes a removal body for each rule, in order |
| PolatisFlowRules.ApplySkipsOpticalRules | drivers/hpnpolatis/src/main/java/org.onosproject.drivers.hpnpolatis/HpnPolatisFlowRuleProgrammable.java:106-108 | every body applied comes from a rule without an optical-signal criterion |
| PolatisFlowRules.OpticalBatchSendsNothing | drivers/hpnpolatis/src/main/java/org.onosproject.drivers.hpnpolatis/HpnPolatisFlowRuleProgrammable.java:106-108 | a batch of optical rules sends nothing and succeeds |
| PolatisFlowRules.DeviceRuleSteps | drivers/hpnpolatis/src/main/java/org.onosproject.drivers.hpnpolatis/HpnPolatisFlowRuleProgrammable.java:183-222 | a rule read from the device applies as its own connection and removes as its removal |
| PolatisFlowRules.ReadBackRoundTrip | drivers/hpnpolatis/src/main/java/org.onosproject.drivers.hpnpolatis/HpnPolatisFlowRuleProgrammable.java:183-222 | re-applying the rules read from the device sends back exactly its connections, and removing them sends exactly their removals |
| PolatisFlowRules.SentBodies | drivers/hpnpolatis/src/main/java/org.onosproject.drivers.hpnpolatis/HpnPolatisFlowRuleProgrammable.java:98-132 | when every step of a batch has a body, the batch succeeds and sends exactly those bodies, in order |
| Voyager.CDiv | OpenConfigAgent/voyager_driver.c:66-103 | C division truncating toward zero |
| Voyager.CMod | OpenConfigAgent/voyager_driver.c:66-103 | C remainder, taking the sign of the dividend |
| Voyager.ToInt32 | OpenConfigAgent/voyager_driver.c:90-103 | a `uint32_t` id passed as `int`: in range and congruent modulo 2^32 |
| Voyager.GetVoyagerFromId | OpenConfigAgent/voyager_driver.c:101-103 | a non-negative id is voyager × 1000 plus its last three digits; a negative one truncates toward zero, never to a positive voyager |
| Voyager.GetSideFromId | OpenConfigAgent/voyager_driver.c:90-99 | the side is 1 (client) or 2 (line) iff the id's hundreds digit says so, else -1 |
| Voyager.GetPortFromId | OpenConfigAgent/voyager_driver.c:66-88 | the port is the last two digits when within 1..12 (client) or 1..4 (line), else -1 |
| Voyager.ChannelIdRoundTrip | OpenConfigAgent/voyager_driver.c:66-103 | voyager × 1000 + side × 100 + port decodes back to voyager, side and port |
| Voyager.ValidChannelDecomposes | OpenConfigAgent/voyager_driver.c:66-103 | every valid id is voyager × 1000 + side × 100 + port of what it decodes to |
| Voyager.MapIndexToInterface | OpenConfigAgent/voyager_driver.c:106-136 | "swp<port>" for client, "swpL<port>" for line, "-1" iff the id is invalid; fits the 6-byte buffer |
| Voyager.MapIndexToTransponder | OpenConfigAgent/voyager_driver.c:139-160 | "L<port>" for a line channel, "-1" iff it is not one; fits the 3-byte buffer |
| Voyager.InterfaceNameIdentifiesPort | OpenConfigAgent/voyager_driver.c:106-136 | two ids get the same interface name iff they name the same side and port |
| Voyager.ConvertFrequency | OpenConfigAgent/voyager_driver.c:25-42 | accepted iff the `atol` value lies strictly between 191 000 000 and 197 000 000 MHz, and then is that value |
| Voyager.ConvertFrequencyRoundTrip | OpenConfigAgent/voyager_driver.c:25-42 | a decimal MHz text is accepted iff it is in the band, and reads back as itself |
| Voyager.ZeroPad | OpenConfigAgent/voyager_driver.c:257-297 | k digits whose value is n |
| Voyager.FixedTHz | OpenConfigAgent/voyager_driver.c:257-297 | `%f` of MHz/1e6: the whole THz, a point, then six digits holding the remaining MHz |
| Voyager.FirstIndex | OpenConfigAgent/voyager_driver.c:44-46 | `strchr`: a position holding the separator with none before it |
| Voyager.IndexFromName | OpenConfigAgent/voyager_driver.c:44-57 | the `atoi` of what follows the first separator, the one position holding it with none before it; a name without one is read whole |
| Voyager.IndexOfNumberedName | OpenConfigAgent/voyager_driver.c:44-57 | a name "<prefix><sep><n>", the prefix free of the separator, gives back n |
| Voyager.ChannelState | OpenConfigAgent/voyager_driver.c:173-255 | invalid ids give "-1" and send nothing; client ports add (DISABLE) or delete (ENABLE) a link-down; line ports switch transponder power and link-down; each sends commit; fits the 100-byte buffer |
| Voyager.Frequency | OpenConfigAgent/voyager_driver.c:257-297 | accepted iff the channel is a line channel and the frequency is in the band; then sets the transponder's frequency and commits |
| Voyager.IntToStringLength | OpenConfigAgent/voyager_driver.c:299-353 | a 32-bit VLAN id prints in at most 11 characters |
| Voyager.Vlan | OpenConfigAgent/voyager_driver.c:299-353 | accepted iff both channels are valid and the operation is ADD or DELETE; then adds or deletes the VLAN on both interfaces and commits; fits the buffers |
| Voyager.VoyagerLink.constructor | OpenConfigAgent/voyager_driver.c:163-171 | no command sent yet |
| Voyager.VoyagerLink.SendCommand | OpenConfigAgent/voyager_driver.c:163-171 | the command is appended to what was sent |
| Voyager.VoyagerLink.SetChannelState | OpenConfigAgent/voyager_driver.c:173-255 | returns the channel-state reply and sends exactly its commands |
| Voyager.VoyagerLink.SetFrequency | OpenConfigAgent/voyager_driver.c:257-297 | returns the frequency reply and sends exactly its commands |
| Voyager.VoyagerLink.SetVlan | OpenConfigAgent/voyager_driver.c:299-353 | returns the VLAN reply and sends exactly its commands |
| Voyager.InterfaceTestVectors | OpenConfigAgent/voyager_driver_unit_test.c:70-79 | the unit test's interface names and its rejected ids |
| Voyager.TransponderTestVectors | OpenConfigAgent/voyager_driver_unit_test.c:82-91 | the unit test's transponder names and its rejected ids |
| Voyager.ChannelStateErrorVectors | OpenConfigAgent/voyager_driver_unit_test.c:112-123 | the unit test's invalid ids give "-1" for ENABLE and DISABLE |

## Left out

- NETCONF, REST and HTTPS transport, and XML and JSON parsing. Device replies
  are parameters: `Option` values, a scripted reply sequence, or parsed
  records.
- Logging, `sleep` and `system` in the Voyager driver. Only the command text
  and the sequence of commands sent are modelled.
- The ROADM `applyFlowRules` and `removeFlowRules` stream wrappers. Each
  applies `EditConfigAddConnection` or `EditConfigDeleteConnection` to every
  rule and keeps the ones that succeed. Each per-rule step is modelled.
- RoadmPowerConfig setters (`setTargetPower`, the acquire and Tx/Rx range
  helpers). The source only logs or returns fixed values, so they change no
  state.
- Floating point. Frequencies are whole hertz. `Frequency.asTHz()` followed
  by `Double.toString` is modelled as the exact shortest decimal, which
  agrees with Java for the grid frequencies of 50 and 100 GHz channels.
- Net.FormatTHz: only states that the text is numeric. The exact digits are
  its definition.
- The ONOS flow id of a rule read from a Polatis device is a parameter
  (`flowIdOf`). It is computed from the app id and rule contents, which are
  not part of this model.
- `FlowEntry` wrappers and their states. A flow entry is modelled as its
  rule. For the Polatis re-apply, rules are compared as ONOS compares them,
  by device, priority and selector (`RuleIdentity`). The table id and the
  payload are not modelled: every rule here is in table 0 without payload.
- `PortNumber.portNumber(String)` is modelled as decimal `long` parsing.
  Non-decimal forms such as "[name](n)" are not modelled.
- The Polatis JSON `asInt` of a value that is not an integer. Values are
  taken to be 32-bit integers.
- PolatisFlowRules.GetFlowEntries: the `NullPointerException` catch is not
  modelled. The model never produces a null entry.
- The iteration order of Java's `HashMap` and `HashSet`. A map's key set is
  re-applied in an unspecified order. The contract states which entries are
  applied and that each is applied once, not their order.
- `findAny` in the ROADM criterion lookups is modelled as the first match.
- The `did()` and `getController()` helpers of the Polatis discovery class
  sit after the class's closing brace at line 127. They only read the
  handler and are not modelled.
- The Polatis chassis id "1111" is kept as text. ONOS's decoding of it is
  not modelled.
- Voyager line-side channel state. The unit test (voyager_driver_unit_test.c
  lines 110-111) expects `add interface L1 state ready` and
  `add interface L4 state tx-off`. The code sends a transponder power
  command and a link-down command. The model follows the code.
- Voyager.ChannelState: requires ENABLE or DISABLE on a line channel. On any
  other value, the C code formats an uninitialised buffer.
- Voyager literal test vectors for frequency and for client-side channel
  state. Their digit strings are too costly to evaluate in the prover. The
  general contracts of Voyager.Frequency and Voyager.ChannelState cover
  these cases.
- The I/O of the ROADM `discoverDeviceDetails`, that is, the NETCONF `get`
  and its XML. The parsed `info` container is a parameter.
- The `HpnPolatisLambdaQuery`, `MetrohaulDriversLoader` and `tson_driver.c`
  sources are not part of this model.
