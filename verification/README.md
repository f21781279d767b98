# networking-baremetal, modelled in Dafny

This project models the control logic of networking-baremetal and proves what it
promises: that switches, trunks and OVN end up configured as Neutron asks, whatever
order things happen in and, where the code claims it, whatever calls fail.

| files | what they model |
|---|---|
| `Ovn`, `Neutron`, `Names` | the databases the agent reads, the Neutron client whose calls may raise, the names objects get and how they are parsed back |
| `TrunkSpec`, `TrunkSteps`, `TrunkManager`, `Targeted` | the L2VNI trunk reconciler: the full pass, the targeted pass, cleanup, sharding |
| `L2vniDriver` | the ML2 driver: dynamic VLAN segments and OVN localnet ports, reference counted |
| `OvnEvents` | which localnet events an agent takes, and the reconciliation lock |
| `EndToEnd` | driver, event queue and reconciler together, over all runs |
| `OpenConfig`, `ConfigObjects`, `PortPayloads`, `NetconfDriver` | configuration objects, payload trees and what `edit-config` does with them, plugging and unplugging |
| `NetconfProtocol` | lock, edit, confirmed commit and retry, over all interleavings of sessions |
| `HashRing` | ring membership: a list shortened while it is walked |
| `RouterHa` | router ports bound to HA groups |
| `PortBinding` | all-or-nothing binding of a port on several switches |
| `VlanTypes` | VLAN ids, the range pattern, the VLAN list of a trunk |

Objects the source changes in place are classes whose methods are proved against
functions on values; the lemmas are about those functions. External calls are methods
that may raise at any time; `failures` counts them, so "fault-free" is "the counter did
not move". A Neutron call that raises has had no effect. `View` is what an observer
sees of the trunks: each name with its VLANs. `PassView` and `TargetView` say what a
full and a targeted pass make of it.

## What the proofs found

- Physical networks with a dash: trunk names are parsed with one split from the right
  (`agent/l2vni_trunk_manager.py:1596-1604`), so a valid pair can be taken for an orphan,
  and two pairs can share a trunk name (`DashedPairCleanedUp` has the exact condition).
- The full pass uses the first overlay segment of a network (`:734-736`), the targeted
  pass the last (`:818-821`); `VniAgrees` has the exact condition.
- A release goes by (network, physical network), not by segment, and checks for bound
  ports without holding the segment (`plugins/ml2/baremetal_l2vni_mapping.py:374-389`).
  Binds and releases of one place may overlap as they like, except in two ways
  (`EndToEnd.Orderly`): a bind must not start while a release is past its check and has
  something left to undo, and a check must not succeed while a bind is under way or a
  port is bound to a newer segment. Each of these can cost a bound port its segment or
  its localnet port (`DisorderStrandsPort`), and a trunk its VLAN (`DisorderSplitsTrunk`).
- A full pass lists the segments first and reads OVN afterwards
  (`agent/l2vni_trunk_manager.py:723-753`). When in between the last port's release of a
  place completes and the next bind gets a new segment there, the pass takes the new
  localnet port for the old segment's and puts the old VLAN back on the trunks, until the
  next full pass (`StaleReadAddsVlan`, `SlowPassReadsStale`; `Fits` is the exact condition).
- A bind that is not completed after `bind_port` allocated (`:472-519`) leaves the segment
  and the localnet port until the next port of that place goes (`AbandonedBindLeaks`;
  `KeptStep` has the exact condition).
- Plugging a non-bonded port looks at the segment type
  (`drivers/netconf/openconfig.py:526-533`), unplugging at the network type (`:820-823`):
  below an overlay network the VLAN stays on the switch port (`LeftoverVlan`).
- Unplugging a managed LACP port without links queries with an empty filter (`:912-932`)
  and removes every aggregate that has members (`EmptyLinksRemoveAll`).
- A `lock-denied` answer to a request other than the lock is retried (`:288-298`) with the
  aggregate id already filled in (`StaleIdReused`).
- After a failed confirming commit (`:280-284`) the lock is released before the device
  reverts (`UnconfirmedChangeSurvives`). Without these two faults sessions are serialised
  (`CommitsInOrder`).
- Members are removed from the list that is being walked
  (`agent/ironic_neutron_agent.py:129-136`), so a notification can leave up to half of
  the stale members (`SweepHalves`, `SweepBoundTight`).
- `VLAN_RANGE` is `range(1, 4094)` (`constants.py:53`), so VLAN id 4094 is refused although
  the documentation of `VlanRange` and the range pattern allow it; the pattern also accepts
  a final newline; a number out of range passed to `TrunkVlans.add` ends in a `TypeError`
  (`openconfig/vlan/vlan.py:35-43`).
- The documentation of cleanup speaks of trunks without subports
  (`agent/l2vni_trunk_manager.py:1562-1568`); the code removes orphaned trunks with all
  their subports.

## Model

| member | source | states |
|---|---|---|
| TrunkManager.Manager.Reconcile | networking_baremetal/agent/l2vni_trunk_manager.py:164-216 | The full pass from any starting state. Whatever calls raise: the cache ends empty, every trunk only moves towards the VLANs required by the segments the pass listed (all of them, unless that very listing raised), trunks of others are untouched, every listed port exists, and each subport that is left behind unlisted is paid for by a failed call. With no failed call: the trunks carry exactly the required VLANs, orphans are gone, and the state is converged; on a converged state nothing is written; whatever raises, new networks are the anchor network or those of the agent's groups, and new ports are subports on the anchor network or anchor ports on a network of a group of their chassis |
| TrunkManager.ReconcileAll | networking_baremetal/agent/l2vni_trunk_manager.py:133-216 | The passes of any number of managers over one Neutron and one OVN, one after the other: with no failed call the outcome is that of one pass with the union of their shares, and where every chassis has some agent, that of a single agent for all |
| TrunkManager.Manager.RunPass | networking_baremetal/agent/l2vni_trunk_manager.py:181-199 | The body of the full pass with the cache set: the same bounds, outcome and quiescence |
| TrunkManager.Manager.ReconcileSingleVlan | networking_baremetal/agent/l2vni_trunk_manager.py:218-308 | The targeted pass for one event: no trunk changes by more than that VLAN, whatever raises; with no failed call the view is the specified one; an add whose segment is gone touches no port and no trunk; a new subport carries the segment id and the last overlay id of the network; the cache ends empty; new networks and ports are only made where they belong |
| TrunkManager.Manager.RunTargeted | networking_baremetal/agent/l2vni_trunk_manager.py:245-299 | The body of the targeted pass: the same bounds and outcome |
| TrunkSteps.PassIsBounded | networking_baremetal/agent/l2vni_trunk_manager.py:191-202 | Fault monotonicity over a whole pass: each VLAN set stays between (before and required) and (before or required); new trunks are the agent's own |
| TrunkSteps.PassViewReached | networking_baremetal/agent/l2vni_trunk_manager.py:164-216 | The stages of a fault-free pass compose to the specified view: required VLANs on the agent's trunks, orphans gone, everything else as before |
| TrunkSteps.PassConverges | networking_baremetal/agent/l2vni_trunk_manager.py:164-216 | After a fault-free pass there is nothing left for the agent to do |
| TrunkSpec.RunAgentsIsOnePass | networking_baremetal/agent/l2vni_trunk_manager.py:133-146 | Any number of agents with any shares of the chassis, in any order and however often, end with the view of one agent that looks after the union of the shares |
| TrunkSpec.ShardedIsSingle | networking_baremetal/agent/l2vni_trunk_manager.py:133-146 | With a ring that gives every chassis one owner, all agents' passes give the view of one single-agent pass |
| TrunkSpec.ShardsDisjoint | networking_baremetal/agent/l2vni_trunk_manager.py:133-146 | Two agents' shares of the (chassis, physical network) pairs do not overlap |
| TrunkSteps.ShardMaps | networking_baremetal/agent/l2vni_trunk_manager.py:756-766 | The required-VLAN maps of two agents with disjoint chassis do not overlap, and together they are the map of an agent with both |
| TrunkSpec.PassAfterPass | networking_baremetal/agent/l2vni_trunk_manager.py:164-216 | A pass of one agent after a pass of another is one pass of an agent with both shares; hence a second pass is idempotent |
| TrunkSpec.CleanupSparesValidPairs | networking_baremetal/agent/l2vni_trunk_manager.py:1591-1607 | Cleanup by any agent spares the trunk of every valid pair, also of other agents, when the physical network has no dash |
| TrunkSpec.DashedPairCleanedUp | networking_baremetal/agent/l2vni_trunk_manager.py:1591-1607 | For a physical network with a dash the trunk of a valid pair is cleaned up exactly when the pair read back from its name is not valid |
| TrunkSpec.DashedPhysnetIsCleanedUp | networking_baremetal/agent/l2vni_trunk_manager.py:1591-1607 | A concrete database in which that happens |
| TrunkSpec.CleanupSparesGroups | networking_baremetal/agent/l2vni_trunk_manager.py:1653-1671 | Network cleanup never deletes the network of an existing group |
| TrunkSpec.BetweenShrinks | networking_baremetal/agent/l2vni_trunk_manager.py:988-1029 | A VLAN set that stays between the bounds never gets further from the required set |
| TrunkSteps.SymDiffCard | networking_baremetal/agent/l2vni_trunk_manager.py:1008-1029 | Each attach of a missing VLAN and each detach of an extra one brings the set one step closer to the required one |
| Targeted.AddRefinesFullPass | networking_baremetal/agent/l2vni_trunk_manager.py:218-308 | On a view converged before a localnet port appeared, the targeted add gives the view of a full pass on the databases after it |
| Targeted.RemoveRefinesFullPass | networking_baremetal/agent/l2vni_trunk_manager.py:218-308 | After a localnet port went away the targeted remove gives the view of a full pass if and only if none of the agent's trunks there still requires the VLAN |
| Targeted.SameSubport | networking_baremetal/agent/l2vni_trunk_manager.py:802-832 | The subport of a targeted add carries the same segment id as that of a full pass; where overlay ids differ it carries the same overlay id if and only if the network has one overlay segment |
| Ovn.VniAgrees | networking_baremetal/agent/l2vni_trunk_manager.py:731-736 | The first overlay id of a network (full pass) and the last one (targeted pass) agree if and only if its first and last overlay segment carry the same id; where overlay ids differ, if and only if the network has at most one overlay segment |
| TrunkManager.Manager.BuildChassisCache | networking_baremetal/agent/l2vni_trunk_manager.py:148-162 | The cache holds exactly the chassis the agent looks after |
| TrunkManager.Manager.GetChassisByName | networking_baremetal/agent/l2vni_trunk_manager.py:672-690 | On the agent's chassis a lookup finds the same with the cache and without it; with the cache set others are not found |
| TrunkManager.Manager.GroupHasManagedChassis | networking_baremetal/agent/l2vni_trunk_manager.py:343-355 | Whether a group has a chassis of the agent, the same with the cache and without it |
| TrunkManager.Manager.GetChassisPhysnets | networking_baremetal/agent/l2vni_trunk_manager.py:465-496 | The pairs that should have a trunk: chassis of some group with each of their physical networks |
| TrunkManager.Manager.EnsureNetwork | networking_baremetal/agent/l2vni_trunk_manager.py:357-394 | The network exists afterwards; whatever raises, a new network has that name and the others are untouched; one that exists is not written |
| TrunkManager.Manager.EnsureInfrastructure | networking_baremetal/agent/l2vni_trunk_manager.py:310-341 | The anchor network and the networks of the agent's groups exist afterwards, and no other network is made; if they did, nothing is written |
| TrunkManager.Manager.FindGroupNetwork | networking_baremetal/agent/l2vni_trunk_manager.py:645-670 | The network of the first of the chassis' groups that has one; found if and only if some group of the chassis has one, the same with the cache and without it |
| TrunkManager.Manager.FindOrCreateAnchorPort | networking_baremetal/agent/l2vni_trunk_manager.py:556-643 | Found if there, made if a group network is: then on the network of the first of the chassis' groups that has one, with the pair's name, owner and profile; links are only ever filled in; with nothing to do nothing is written |
| TrunkManager.Manager.FindOrCreateTrunk | networking_baremetal/agent/l2vni_trunk_manager.py:517-554 | A trunk of that name, found or made on its anchor port, if and only if an anchor port can be had; existing trunks are untouched |
| TrunkManager.Manager.DiscoverTrunks | networking_baremetal/agent/l2vni_trunk_manager.py:439-463 | The trunks of the agent's pairs, by pair; fault-free every pair with an anchor port or group network is among them; new ports are anchor ports of these pairs, each on a network of its chassis' first group |
| TrunkManager.Manager.GetNetworksWithSegments | networking_baremetal/agent/l2vni_trunk_manager.py:770-800 | Segments grouped by network and kind, in order; after a failed listing, of what was read so far |
| TrunkManager.Manager.GetChassisForLrp | networking_baremetal/agent/l2vni_trunk_manager.py:930-958 | The chassis a router port brings in: its group's members if it has a group, else its gateways; the same on the agent's chassis with the cache and without it |
| TrunkManager.Manager.FindChassisForNetwork | networking_baremetal/agent/l2vni_trunk_manager.py:834-852 | The chassis that need the network's VLAN, exact on the agent's chassis whether or not the cache is set |
| TrunkManager.Manager.CalculateRequiredVlans | networking_baremetal/agent/l2vni_trunk_manager.py:705-768 | The required map of the agent's chassis holds exactly the required VLANs, with the data of a segment that requires them |
| TrunkManager.Manager.AddRequired | networking_baremetal/agent/l2vni_trunk_manager.py:748-766 | One VLAN segment enters the maps of exactly the agent's chassis that want it |
| TrunkManager.Manager.AddSubport | networking_baremetal/agent/l2vni_trunk_manager.py:1031-1086 | Port first, then attach: a made subport is new, carries the profile (no overlay id when it is zero), and is listed; a failed attach leaves one unlisted port; every new port has the subport's name and lies on the anchor network |
| TrunkManager.Manager.RemoveSubport | networking_baremetal/agent/l2vni_trunk_manager.py:1088-1112 | Detach first, then delete, so a listed port always exists; fault-free exactly that port goes |
| TrunkManager.Manager.ReconcileTrunkSubports | networking_baremetal/agent/l2vni_trunk_manager.py:988-1029 | One trunk: the distance to the required set shrinks by one per attach or detach, other trunks are untouched; fault-free the required VLANs are reached, a VLAN without segment id excepted |
| TrunkManager.Manager.AddMissing | networking_baremetal/agent/l2vni_trunk_manager.py:1008-1024 | The loop over missing VLANs: none removed, those with a segment id added |
| TrunkManager.Manager.RemoveExtra | networking_baremetal/agent/l2vni_trunk_manager.py:1026-1029 | The loop over extra VLANs: exactly those removed |
| TrunkManager.Manager.ReconcileSubports | networking_baremetal/agent/l2vni_trunk_manager.py:960-975 | All found trunks; without the anchor network nothing happens; trunks that already match cause no write; new ports are subports on the anchor network |
| TrunkManager.Manager.GetVniAndSegment | networking_baremetal/agent/l2vni_trunk_manager.py:802-832 | The last overlay id and the id of a VLAN segment that matches network, physical network and VLAN, if one is listed |
| TrunkManager.Manager.EnsureSingleSubport | networking_baremetal/agent/l2vni_trunk_manager.py:1114-1144 | The trunk gains at most that VLAN; one that carries it is left alone |
| TrunkManager.Manager.RemoveSingleSubport | networking_baremetal/agent/l2vni_trunk_manager.py:1146-1176 | The trunk loses at most that VLAN |
| TrunkManager.Manager.TouchChassis | networking_baremetal/agent/l2vni_trunk_manager.py:277-295 | One chassis of the targeted pass: fault-free its trunk exists and carries, or no longer carries, the VLAN; without an anchor port to be had nothing changes |
| TrunkManager.Manager.TouchAll | networking_baremetal/agent/l2vni_trunk_manager.py:270-295 | All chassis with the physical network that the agent looks after, in any order: fault-free the specified view |
| TrunkManager.Manager.RemoveOrphan | networking_baremetal/agent/l2vni_trunk_manager.py:1611-1644 | An orphaned trunk goes with its subports and its anchor port, and no other port; a failed trunk deletion keeps the anchor port |
| TrunkManager.Manager.EmptyTrunk | networking_baremetal/agent/l2vni_trunk_manager.py:1614-1626 | The subports of an orphan, one by one; failures leave single subports attached |
| TrunkManager.Manager.CleanupTrunks | networking_baremetal/agent/l2vni_trunk_manager.py:1582-1647 | Only trunks whose name parses to a pair that is not valid are touched; fault-free none is left, and their ports are gone |
| TrunkManager.Manager.CleanupNetworks | networking_baremetal/agent/l2vni_trunk_manager.py:1649-1691 | Only networks of vanished groups without an anchor port are deleted; fault-free none is left |
| TrunkManager.Manager.CleanupNetwork | networking_baremetal/agent/l2vni_trunk_manager.py:1656-1687 | One network: deleted exactly when its name parses to a group that is gone and no anchor port is on it |
| TrunkManager.Manager.FinishPass | networking_baremetal/agent/l2vni_trunk_manager.py:196-199 | Subports before cleanup, with the effects of each stage |
| TrunkManager.Manager.PassPlaces | networking_baremetal/agent/l2vni_trunk_manager.py:191-199 | The stages of a pass put each new port on its network, and the cleanup of networks leaves those networks alone |
| TrunkSteps.AddToGroup | networking_baremetal/agent/l2vni_trunk_manager.py:784-794 | One segment enters the group of its network and kind and no other |
| Neutron.AttachValid | networking_baremetal/agent/l2vni_trunk_manager.py:1074-1079 | Attaching a free port keeps every listed port existing and no port listed twice |
| Neutron.DetachFrees | networking_baremetal/agent/l2vni_trunk_manager.py:1104-1107 | After the detach the port is free to be deleted |
| Neutron.LeaksRemove | networking_baremetal/agent/l2vni_trunk_manager.py:1103-1107 | Detach and delete together leave no unlisted port |
| Names.TrunkNameRoundTrip | networking_baremetal/agent/l2vni_trunk_manager.py:60-67 | A trunk name parses back to its pair if and only if the physical network has no dash; the system id may have any |
| Names.TrunkNameInjective | networking_baremetal/agent/l2vni_trunk_manager.py:60-67 | Different pairs have different trunk names when the physical networks have no dash |
| Names.TrunkNameCollides | networking_baremetal/agent/l2vni_trunk_manager.py:1597-1604 | With a dash two pairs share one trunk name |
| Names.ParsedTrunkName | networking_baremetal/agent/l2vni_trunk_manager.py:1597-1604 | Whatever parses is the name built from what it parses to |
| Names.AnchorNameOf | networking_baremetal/agent/l2vni_trunk_manager.py:70-77 | On one physical network anchor port names differ by system id |
| Names.SubportNameIsNoAnchor | networking_baremetal/agent/l2vni_trunk_manager.py:80-88 | No subport is ever taken for an anchor port |
| Names.GroupNetworkRoundTrip | networking_baremetal/agent/l2vni_trunk_manager.py:91-97 | Group network names parse back for every group name, dashes included |
| Names.LocalnetNameRoundTrip | networking_baremetal/agent/ovn_events.py:156-172 | Localnet port names are read back as their network if and only if the physical network does not hold the separator |
| Names.LocalnetNameInjective | networking_baremetal/plugins/ml2/baremetal_l2vni_mapping.py:74-76 | Localnet ports of different (network, physical network) pairs have different names |
| L2vniDriver.Plugin.AllocateDynamicSegment | networking_baremetal/plugins/ml2/baremetal_l2vni_mapping.py:472-492 | What the driver relies on: a new id, and a VLAN unused on that physical network |
| L2vniDriver.Driver.EnsureLocalnetPort | networking_baremetal/plugins/ml2/baremetal_l2vni_mapping.py:174-271 | Self-healing: from any state, also with a stale tag left by a removal that failed, when no call raises the localnet port carries the VLAN; when one does the port is missing, as it was, or right; the events say what happened |
| L2vniDriver.Driver.RemoveLocalnetPort | networking_baremetal/plugins/ml2/baremetal_l2vni_mapping.py:273-318 | The localnet port is gone, or a call raised and nothing changed |
| L2vniDriver.Driver.AfterBind | networking_baremetal/plugins/ml2/baremetal_l2vni_mapping.py:503-519 | After a bind whose calls succeed the localnet port of the place carries exactly the bound segment's VLAN and no other localnet port changed |
| L2vniDriver.Driver.BindPortSegment | networking_baremetal/plugins/ml2/baremetal_l2vni_mapping.py:423-519 | The four refusals and when each happens; otherwise the first VLAN segment of the network on the physical network, or a new one, and its localnet port |
| L2vniDriver.Driver.BindPort | networking_baremetal/plugins/ml2/baremetal_l2vni_mapping.py:391-421 | Only baremetal ports outside the anchor network are bound, to the first overlay segment on offer |
| L2vniDriver.Driver.ReleaseUnused | networking_baremetal/plugins/ml2/baremetal_l2vni_mapping.py:375-389 | The last port to leave takes localnet port and segment with it; the segment is released even when the removal raised |
| L2vniDriver.Driver.UpdatePortPostcommit | networking_baremetal/plugins/ml2/baremetal_l2vni_mapping.py:320-356 | An unbound port releases its bottom segment if it was the last; a bound one only completes provisioning |
| L2vniDriver.Driver.DeletePortPostcommit | networking_baremetal/plugins/ml2/baremetal_l2vni_mapping.py:358-389 | A deleted port releases its bottom segment if it was the last |
| L2vniDriver.LowerSegment | networking_baremetal/plugins/ml2/baremetal_l2vni_mapping.py:452-457 | The first VLAN segment on the physical network, or proof that there is none |
| EndToEnd.TrunksFollowPorts | networking_baremetal/plugins/ml2/baremetal_l2vni_mapping.py:174-318 | End to end, in every interleaving of orderly steps, binds and releases overlapping on one place included, provided no pass has failed, or written what it had read out of step, since the last good full pass: replaying the pending localnet events over the VLANs of any trunk of the agent gives the tags of the live localnet ports on its physical network; with none pending they are equal |
| EndToEnd.DisorderStrandsPort | networking_baremetal/plugins/ml2/baremetal_l2vni_mapping.py:331-348 | The exact condition, other half: from every state orderly steps reach, a step that is not orderly (a bind that starts while a release on its place still has something to undo, a last-port check that succeeds while a bind is under way there or, late, while a port is bound to a newer segment) has a continuation that leaves a bound port without its segment or its localnet port |
| EndToEnd.DisorderSplitsTrunk | networking_baremetal/plugins/ml2/baremetal_l2vni_mapping.py:339-348 | And when such a bind has not reached its localnet port yet, a continuation without a failed pass delivers every event and leaves a live localnet port whose VLAN the trunk lacks |
| EndToEnd.Lifecycle | networking_baremetal/plugins/ml2/baremetal_l2vni_mapping.py:320-389 | In every run of orderly steps: one VLAN segment per network and physical network; localnet tags distinct on a physical network, each that of a segment; a bound port has its segment, and its localnet port carries that VLAN |
| EndToEnd.LastOneOut | networking_baremetal/plugins/ml2/baremetal_l2vni_mapping.py:358-389 | In every orderly and tidy run from no VLAN segments: a place with nothing under way has a VLAN segment if and only if a port is bound there, and where a chassis maps the physical network the same holds of the localnet port; so both go with the last port |
| EndToEnd.KeptStep | networking_baremetal/plugins/ml2/baremetal_l2vni_mapping.py:358-389 | Every VLAN segment is in use or has a bind or release under way; a step keeps that if and only if it is tidy: a bind given up, or a port bound elsewhere without leaving, must leave its segment to someone |
| EndToEnd.AbandonedBindLeaks | networking_baremetal/plugins/ml2/baremetal_l2vni_mapping.py:472-519 | From every reachable state, a bind that allocates and is then given up leaves segment and localnet port with no port bound and nothing under way |
| EndToEnd.ReboundPortLeaks | networking_baremetal/plugins/ml2/baremetal_l2vni_mapping.py:328-348 | So does the last port of a segment that is bound to another one without leaving |
| EndToEnd.DeliverKeeps | networking_baremetal/agent/l2vni_trunk_manager.py:254-264 | An event keeps the invariant, also a creation that is skipped because its segment is already released |
| EndToEnd.FullPassHeals | networking_baremetal/agent/l2vni_trunk_manager.py:705-768 | A full pass at any moment, with events pending, with driver steps between its reads and before its writes, and whatever earlier passes did to the trunks: every trunk of the agent carries what was read, and where that was read in step the end-to-end relation holds again |
| EndToEnd.FailKeeps | networking_baremetal/agent/l2vni_trunk_manager.py:301-308 | A pass that fails, with any effect on the trunks, leaves everything else of the invariant intact |
| EndToEnd.RequiredIsTags | networking_baremetal/agent/l2vni_trunk_manager.py:705-768 | What the full pass requires on a trunk are exactly the tags of the localnet ports on its physical network |
| EndToEnd.StepKeeps | networking_baremetal/plugins/ml2/baremetal_l2vni_mapping.py:174-519 | Every orderly step of bind, release, event and pass keeps the invariant; the write of a full pass that read in step restores its trunk part |
| EndToEnd.RunKeeps | networking_baremetal/plugins/ml2/baremetal_l2vni_mapping.py:174-519 | Hence every orderly run keeps it, and its trunk part whenever no pass failed since the last good full one |
| EndToEnd.ReplayIs | networking_baremetal/agent/ovn_events.py:141-148 | A VLAN survives replay if and only if its last pending event is a creation, or it has none and was there |
| EndToEnd.TagsDistinct | networking_baremetal/plugins/ml2/baremetal_l2vni_mapping.py:472-492 | Two localnet ports on one physical network never carry the same tag |
| EndToEnd.EventsAfterCreate | networking_baremetal/plugins/ml2/baremetal_l2vni_mapping.py:239-263 | A new localnet port keeps the pending events consistent with the ports there are |
| EndToEnd.EventsAfterRemove | networking_baremetal/plugins/ml2/baremetal_l2vni_mapping.py:306-311 | So does a removal |
| EndToEnd.ReadSegmentsKeeps | networking_baremetal/agent/l2vni_trunk_manager.py:770-800 | The segments a pass lists are those of all localnet ports, pending events aside, and stay so while the driver goes on |
| EndToEnd.ReadPortsKeeps | networking_baremetal/agent/l2vni_trunk_manager.py:834-852 | When OVN is read while it still fits those segments, what was read is right for every trunk of the agent, pending events aside |
| EndToEnd.StaleReadAddsVlan | networking_baremetal/agent/l2vni_trunk_manager.py:723-766 | The exact condition, other half: when it no longer fits, the pass puts a VLAN on the trunks that no localnet port carries and no pending event takes off |
| EndToEnd.SlowPassReadsStale | networking_baremetal/agent/l2vni_trunk_manager.py:723-766 | From every reachable state in which a segment is about to be released, orderly steps lead there: segments listed, the release completes, a new segment and localnet port at the same place, OVN read |
| EndToEnd.Strands | networking_baremetal/plugins/ml2/baremetal_l2vni_mapping.py:379-389 | A release that is past its check and still has something to undo takes segment or localnet port from a port bound on its place |
| EndToEnd.UnbridgeKeeps | networking_baremetal/plugins/ml2/baremetal_l2vni_mapping.py:379-389 | Removing the localnet port keeps the invariant, with other binds and releases under way, also on the same place |
| EndToEnd.ReleaseKeeps | networking_baremetal/plugins/ml2/baremetal_l2vni_mapping.py:379-389 | So does releasing the segment; one that was still there leaves neither segment nor localnet port |
| EndToEnd.BindIsTwoSteps | networking_baremetal/plugins/ml2/baremetal_l2vni_mapping.py:423-519 | A bind of the driver is a run of the machine's steps |
| EndToEnd.ReleaseIsSteps | networking_baremetal/plugins/ml2/baremetal_l2vni_mapping.py:364-389 | A release of the driver is a run of the machine's steps, of a last port and of another one |
| OvnEvents.DriverRowsUnderstood | networking_baremetal/agent/ovn_events.py:53-146 | Rows the driver creates reach the owner of their network as exactly the change they stand for and are ignored by everyone else; a physical network that holds the separator is ignored by all |
| OvnEvents.CacheUnderLock | networking_baremetal/agent/ironic_neutron_agent.py:641-701 | In every interleaving of periodic and event threads the cache is empty whenever the lock is free, and a pass works with its own cache |
| OvnEvents.MoveKeeps | networking_baremetal/agent/ironic_neutron_agent.py:665-701 | Every acquire, skip, fill, clear and release keeps that |
| OpenConfig.UndoneMeansDelete | networking_baremetal/constants.py:60-100 | If everything one payload does is overwritten by a second, then on every datastore doing both is doing the second alone |
| OpenConfig.PlayAt | networking_baremetal/constants.py:60-100 | The last edit that touches a leaf decides what it holds |
| OpenConfig.PayloadEdits | networking_baremetal/openconfig/interfaces/interfaces.py:351-360 | The trees of interfaces and LACP mean exactly the listed edits, under the operation rules of section 7.2 of RFC 6241 |
| OpenConfig.EntryElementEdits | networking_baremetal/openconfig/interfaces/interfaces.py:233-304 | An interface entry: where the operation lands, for ethernet and aggregate interfaces |
| OpenConfig.ConfigElementEdits | networking_baremetal/openconfig/interfaces/interfaces.py:135-153 | The operation of a config group is repeated on each of its leaves |
| OpenConfig.EthernetElementEdits | networking_baremetal/openconfig/interfaces/ethernet.py:69-135 | Aggregate id and switched VLAN below an ethernet interface |
| OpenConfig.AggregationElementEdits | networking_baremetal/openconfig/interfaces/aggregate.py:77-145 | Lag type, minimum links and switched VLAN below an aggregate |
| OpenConfig.LacpElementEdits | networking_baremetal/openconfig/lacp/lacp.py:170-181 | An LACP entry with its own operation and its configuration |
| OpenConfig.OptSwitchedVlanEdits | networking_baremetal/openconfig/vlan/vlan.py:162-181 | A switched VLAN's operation sits on its config container |
| ConfigObjects.Interface.constructor | networking_baremetal/openconfig/interfaces/interfaces.py:211-254 | A new interface merges, with empty groups below it |
| ConfigObjects.Interfaces.Add | networking_baremetal/openconfig/interfaces/interfaces.py:331-349 | The new interface is last in the list and distinct from all others |
| ConfigObjects.LacpInterface.SetName | networking_baremetal/openconfig/lacp/lacp.py:140-148 | The name in the configuration follows the name of the entry |
| ConfigObjects.AllocateDeferred | networking_baremetal/drivers/netconf/openconfig.py:346-367 | In place, every object ends with the marker replaced wherever the driver looks for it, and nothing else changed |
| ConfigObjects.MarkersLeft | networking_baremetal/drivers/netconf/openconfig.py:346-367 | For any objects: the allocation leaves no marker if and only if none stands where the driver does not look (the name of a port, the configured name of an LACP entry named otherwise) and the id is not itself a marker that had to be replaced |
| ConfigObjects.AggregationIdsCount | networking_baremetal/drivers/netconf/openconfig.py:336-343 | The inclusive range holds as many different ids as numbers |
| ConfigObjects.GetFreeAggregateId | networking_baremetal/drivers/netconf/openconfig.py:369-395 | An id of the range that no interface on the device has; none if and only if the range is used up |
| ConfigObjects.FreeIdExists | networking_baremetal/drivers/netconf/openconfig.py:369-395 | There is one exactly when the device uses fewer than all of them |
| PortPayloads.DeleteUndoesCreate | networking_baremetal/drivers/netconf/openconfig.py:512-635 | On every device, creating a port and deleting it with the same options is deleting it alone: non-bonded (segment and network type agreeing), managed LACP (at least one link), preconfigured |
| PortPayloads.RoundTripAddsNothing | networking_baremetal/drivers/netconf/openconfig.py:798-869 | After create and delete the device holds, apart from the links' names, no leaf, aggregate or LACP entry it did not hold before |
| PortPayloads.OthersUntouched | networking_baremetal/drivers/netconf/openconfig.py:545-635 | Neither create nor delete touches any other interface |
| PortPayloads.LeftoverVlan | networking_baremetal/drivers/netconf/openconfig.py:798-825 | For a VLAN segment below a network of another type a non-bonded delete leaves the links in the VLAN; exactly then |
| PortPayloads.CreateSetsVlan | networking_baremetal/drivers/netconf/openconfig.py:545-572 | After a non-bonded create every link is in the segment's VLAN |
| PortPayloads.LinksJoin | networking_baremetal/drivers/netconf/openconfig.py:912-932 | After a managed LACP create the links' query finds the new aggregate and no other |
| PortPayloads.EmptyLinksRemoveAll | networking_baremetal/drivers/netconf/openconfig.py:827-869 | A managed LACP delete without links removes every aggregate that has members |
| PortPayloads.NonBondUndone | networking_baremetal/drivers/netconf/openconfig.py:798-825 | Each edit of the non-bonded create is undone |
| PortPayloads.LacpUndone | networking_baremetal/drivers/netconf/openconfig.py:827-869 | Each edit of the LACP create is undone, for links, aggregate and LACP entry |
| PortPayloads.PreConfListUndone | networking_baremetal/drivers/netconf/openconfig.py:871-887 | Each edit of the preconfigured create is undone |
| PortPayloads.PreConfKeepsIds | networking_baremetal/drivers/netconf/openconfig.py:637-662 | Configuring a preconfigured aggregate does not change which links belong to it |
| PortPayloads.DeferredResolved | networking_baremetal/drivers/netconf/openconfig.py:346-367 | What is built with the marker carries, after the allocation, one id as the aggregate's name, in its configuration, in each member's reference, in the LACP entry and in its configuration; no marker is left anywhere if and only if the id is not the marker and no switch port is called like it |
| PortPayloads.AllocatedEntries | networking_baremetal/drivers/netconf/openconfig.py:592-635 | What is built with the marker is, once resolved, what would be built with the id |
| PortPayloads.TwoPayloads | networking_baremetal/drivers/netconf/openconfig.py:303-334 | The payloads as sent mean the edits the results are about, in the order sent |
| NetconfDriver.Driver.CreatePort | networking_baremetal/drivers/netconf/openconfig.py:512-543 | By bond mode: the payload applied; an invalid access VLAN or a missing preconfigured aggregate is refused before the device is touched; a managed aggregate gets a free id of the range |
| NetconfDriver.Driver.CreateNonBond | networking_baremetal/drivers/netconf/openconfig.py:545-572 | Links with state, description, MTU unless disabled, and the VLAN |
| NetconfDriver.Driver.CreateLacpAggregate | networking_baremetal/drivers/netconf/openconfig.py:574-635 | Members, aggregate and LACP entry with one free id |
| NetconfDriver.Driver.BuildLacp | networking_baremetal/drivers/netconf/openconfig.py:592-633 | The objects before the id is known: the marker everywhere |
| NetconfDriver.Driver.CreatePreConfAggregate | networking_baremetal/drivers/netconf/openconfig.py:637-662 | The aggregates the links are in; none is an error |
| NetconfDriver.Driver.DeletePort | networking_baremetal/drivers/netconf/openconfig.py:772-796 | By bond mode: the removal applied; the aggregates are those the links are in |
| NetconfDriver.Driver.DeleteNonBond | networking_baremetal/drivers/netconf/openconfig.py:798-825 | Each leaf marked for removal, the VLAN when the network is of type VLAN |
| NetconfDriver.Driver.DeleteLacpAggregate | networking_baremetal/drivers/netconf/openconfig.py:827-869 | LACP entries first, then links and aggregates |
| NetconfDriver.Driver.DeletePreConfAggregate | networking_baremetal/drivers/netconf/openconfig.py:871-887 | The aggregates are shut and lose their VLAN |
| NetconfDriver.Driver.GetAggregateIds | networking_baremetal/drivers/netconf/openconfig.py:912-932 | Exactly the aggregates of the queried links |
| NetconfProtocol.RunningWriters | networking_baremetal/drivers/netconf/openconfig.py:252-301 | In every interleaving the running datastore changes only by a commit of the session that holds the lock (an edit, without a candidate), or by the device taking back a confirmed commit when its session ends or its time is up (sections 7.5, 8.3 and 8.4 of RFC 6241) |
| NetconfProtocol.LosersWriteNothing | networking_baremetal/drivers/netconf/openconfig.py:247-298 | A session that never got the lock in its attempts never wrote |
| NetconfProtocol.CreatesTakeFreeIds | networking_baremetal/drivers/netconf/openconfig.py:255-284 | In every run without the two faults (a lock-denied answer inside the lock once the aggregate id is filled in, an error between a confirmed commit and its confirmation) each change of the running datastore is exactly the lock holder's payload, a LACP create taking an id of the range that was free, or the device taking back exactly the holder's unconfirmed payload |
| NetconfProtocol.CommitsInOrder | networking_baremetal/drivers/netconf/openconfig.py:252-301 | Sessions are serialised: in such a run the running datastore is the initial one with the payload of each committed session, once each, in commit order, and at most one unconfirmed payload on top; a session that reports failure is among them if and only if its connection broke after its commit |
| NetconfProtocol.IdsAreUnique | networking_baremetal/drivers/netconf/openconfig.py:255-284 | In such a run two committed LACP creates have the same aggregate id only if a change committed between them removed it, and never where no committed change removes an id of the range |
| NetconfProtocol.SuccessfulIdsDiffer | networking_baremetal/drivers/netconf/openconfig.py:255-284 | Hence two successful creates never share an id, however the sessions interleave, unless a committed change removed it in between |
| NetconfProtocol.RunTookFree | networking_baremetal/drivers/netconf/openconfig.py:255-284 | Every such run keeps: each committed create took an id of the range that was free in what the sessions committed before it had made |
| NetconfProtocol.FailedWroteNothing | networking_baremetal/drivers/netconf/openconfig.py:286-301 | Whatever goes wrong in other sessions: a session that fails wrote nothing, unless it failed between its confirmed commit and the unlock |
| NetconfProtocol.StaleIdReused | networking_baremetal/drivers/netconf/openconfig.py:288-298 | The first fault, from every reachable state in which it can strike: with another create waiting and another id free, a continuation gives the id to the other create, which finishes, and then the retry overwrites it |
| NetconfProtocol.UnconfirmedChangeSurvives | networking_baremetal/drivers/netconf/openconfig.py:277-284 | The second fault, from every state such runs reach: with another session waiting, a continuation makes the failed payload permanent below that of the other session, although its own session reports failure and never committed |
| NetconfProtocol.StepLock | networking_baremetal/drivers/netconf/openconfig.py:255-256 | Every step keeps: the lock is held by exactly the session between lock and unlock |
| NetconfProtocol.RunLock | networking_baremetal/drivers/netconf/openconfig.py:247-301 | Hence every run keeps it |
| NetconfProtocol.StepIds | networking_baremetal/drivers/netconf/openconfig.py:255-282 | Every step but those two faults keeps: before its write the lock holder's id is free and its candidate is the running datastore plus its payload |
| NetconfProtocol.RunIds | networking_baremetal/drivers/netconf/openconfig.py:255-282 | Hence every run without them keeps it |
| NetconfProtocol.RunSerial | networking_baremetal/drivers/netconf/openconfig.py:252-301 | Every such run keeps: what is running, an unconfirmed payload aside, is what the committed sessions made of the initial datastore |
| HashRing.Endpoint.Info | networking_baremetal/agent/ironic_neutron_agent.py:110-141 | Whatever ring calls raise, ring nodes and member ids stay equal and no fresh member is evicted; with none raising the list is exactly the specified one |
| HashRing.Endpoint.EvictStale | networking_baremetal/agent/ironic_neutron_agent.py:127-139 | The walk over the list it shortens: after each removal one member is skipped |
| HashRing.Endpoint.Touch | networking_baremetal/agent/ironic_neutron_agent.py:122-125 | An announced member's timestamp is renewed, everything else stays |
| HashRing.SweepHalves | networking_baremetal/agent/ironic_neutron_agent.py:127-139 | At most half of the stale members, rounded down, survive a notification |
| HashRing.SweepBoundTight | networking_baremetal/agent/ironic_neutron_agent.py:127-139 | And exactly half when all are stale |
| HashRing.SweepKeepsFresh | networking_baremetal/agent/ironic_neutron_agent.py:127-139 | Fresh members survive and nobody is invented |
| HashRing.NotifiedHalves | networking_baremetal/agent/ironic_neutron_agent.py:110-141 | Each notification at least halves the number of stale members |
| HashRing.AllGone | networking_baremetal/agent/ironic_neutron_agent.py:110-141 | With staleness fixed, s stale members are gone after floor(log2 s) + 1 notifications, or more |
| HashRing.Receive | networking_baremetal/agent/ironic_neutron_agent.py:110-141 | The notifications one endpoint gets, in order: with no failed ring call the list is the specified one, and after more of them from fresh members than the logarithm of the number of stale members, every listed member is fresh |
| HashRing.JoinedIds | networking_baremetal/agent/ironic_neutron_agent.py:112-125 | The announced id joins, all others stay |
| RouterHa.Manager.GetRouterPortsForNetworks | networking_baremetal/agent/router_ha_binding.py:209-251 | For any number of networks the chunked result is one query over all of them, grouped; each network is covered once |
| RouterHa.Manager.UpdateLrp | networking_baremetal/agent/router_ha_binding.py:136-167 | Written only when it carries another group |
| RouterHa.Manager.BindPorts | networking_baremetal/agent/router_ha_binding.py:84-94 | A network's ports all carry the group afterwards; if they did, nothing is written |
| RouterHa.Manager.BindRouterInterfacesForNetwork | networking_baremetal/agent/router_ha_binding.py:69-104 | The event: exactly the ports of that network, if the agent owns it |
| RouterHa.Manager.GetNetworksWithGroups | networking_baremetal/agent/router_ha_binding.py:253-300 | One group per network, the last row counting |
| RouterHa.Manager.Reconcile | networking_baremetal/agent/router_ha_binding.py:302-364 | Whatever raises, a row is as before or as wanted; fault-free every found port of a managed network carries its group; a repeat writes nothing |
| Neutron.LeaksAttach | networking_baremetal/agent/l2vni_trunk_manager.py:1063-1079 | A new subport that is attached is no leak |
| RouterHa.ChunkStep | networking_baremetal/agent/router_ha_binding.py:229-249 | A further chunk of other networks extends the result |
| RouterHa.GroupedIsUnchunked | networking_baremetal/agent/router_ha_binding.py:209-251 | Grouping what the chunks found is grouping one query |
| RouterHa.BoundIdempotent | networking_baremetal/agent/router_ha_binding.py:302-364 | The outcome of a pass is a fixed point |
| RouterHa.BoundMeans | networking_baremetal/agent/router_ha_binding.py:302-364 | Every port of a network with a group carries that group |
| RouterHa.EventIsRestriction | networking_baremetal/agent/router_ha_binding.py:69-104 | Binding on the event of one network is the periodic pass restricted to it |
| PortBinding.MechDriver.TryToBind | networking_baremetal/plugins/ml2/baremetal_mech.py:441-565 | Not bound if and only if a check fails, and then no driver was called; bound: every device called once with exactly its links, in order; a driver that raises stops after a prefix |
| PortBinding.MechDriver.ByDevice | networking_baremetal/plugins/ml2/baremetal_mech.py:494-536 | Refused if and only if some link on a known device has no port id, is off the physical network or has no driver; otherwise the partition |
| PortBinding.MechDriver.Unplug | networking_baremetal/plugins/ml2/baremetal_mech.py:662-720 | The same partition is unplugged, unless a driver does not support the bond mode |
| PortBinding.PlanPartitions | networking_baremetal/plugins/ml2/baremetal_mech.py:494-536 | Each device once, with links; every link as often as listed to its own device and to no other |
| PortBinding.DevicesAre | networking_baremetal/plugins/ml2/baremetal_mech.py:593-607 | The devices called are those of some link, each once |
| PortBinding.LinksAre | networking_baremetal/plugins/ml2/baremetal_mech.py:536 | A device gets its links as often as they are listed |
| VlanTypes.VlanRangeIs | networking_baremetal/openconfig/vlan/types.py:61-76 | Over all strings: accepted if and only if, up to one final newline, it is x..y with canonical decimals and 1 <= x <= y <= 4094 |
| VlanTypes.TokenIs | networking_baremetal/openconfig/vlan/types.py:61-65 | A side of the pattern is exactly the decimal text of a number from 1 to 4094 |
| VlanTypes.TrunkVlans.Add | networking_baremetal/openconfig/vlan/vlan.py:35-43 | Entries stay distinct and within bounds; a number out of range ends in a type error, a bad range in a value error, and the list is unchanged |

## Left out

- Neutron's, OVN's and ironic's own logic: the segment allocator, binding levels, trunk plugin and ring lookups are contracts (unique VLAN per physical network, distinct VLANs per trunk, unique trunk and anchor port names, levels cleared before the postcommit hook).
- Hashing and replica points of the ring; only the node set and an owner function are kept.
- XML text, namespaces, capability URLs, ncclient sessions, SSH and the regular expression that renames ports (a function on names here). Elements are trees, and the operations `create` and `delete`, which the driver never sends, are not modelled.
- Native and trunk VLANs of a switched VLAN, which the driver never sets; `update_port`, `create_network`, `update_network` and `delete_network` of the NETCONF driver: single payloads without interaction.
- LLDP, ironic and YAML sources of link information: one function from pair to links. Bridge mappings are taken as parsed.
- Transport, notifier and listener setup, state reports, timers, jitter, service start and stop, logging, empty precommit hooks.
- Order in which Neutron lists things and Python walks sets: arbitrary here.
- A raised Neutron call that took effect on the server all the same.
- HA groups that differ between a port and its network, and the alignment pass for them.
- Plain VLAN networks in the release path of the L2VNI driver; other agents' events: targeted results are for the agent that owns the chassis.
- A stray anchor port of a chassis that is in no group: the targeted pass would make its trunk, the full pass clean it up; the targeted outcome is stated without such ports.
- EndToEnd: physical networks that gain or lose their last chassis during a run, and failed OVN calls of the driver. A full pass lists Neutron's segments in one step, reads OVN in a second and writes the trunks in a third; that OVN is read network by network is not modelled.
- NetconfProtocol: a persist id, which the driver does not send, so a confirmed commit can only be confirmed by its own session (section 8.4 of RFC 6241); an unlock that fails; datastores are seen as interface names and who wrote them last, not as trees; locks taken by programs other than this driver appear only as denials; non-NETCONF changes to the candidate are not modelled.
- PortBinding.MechDriver.Unplug: drivers that loaded when the port was bound still load; otherwise the source fails with a `KeyError`.
- NetconfDriver.Driver.CreatePort: the edit call is atomic here; its steps on the device are the subject of `NetconfProtocol`.
- RouterHa.Manager.Reconcile: port ids are unique, as Neutron guarantees.
- VlanTypes.TrunkVlans.Add: what `int` accepts of a text is an argument.
