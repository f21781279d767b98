/** What the trunk reconciler reads: OVN chassis, HA groups, logical switches and
    router ports, and the Neutron segments. Everything here is a value; the
    required-VLAN map the agent computes is specified at the end. */
module Ovn {
  import opened Wrappers
  import opened Names

  /** (system id, physical network); the chassis name is the system id. */
  type Key = (string, string)

  /** `physnets` are the names parsed out of ovn-bridge-mappings. */
  datatype Chassis = Chassis(name: string, physnets: seq<string>)

  datatype HaGroup = HaGroup(name: string, members: seq<string>)

  /** Logical switch ports by type. */
  datatype Lsp =
    | Localnet(physnet: string, tag: int)
    | RouterPort(lrp: string)
    | OtherPort

  /** A logical router port: an optional HA group, and the legacy gateway list. */
  datatype Lrp = Lrp(group: Option<HaGroup>, gateways: seq<string>)

  datatype Databases = Databases(
    chassis: seq<Chassis>,
    groups: seq<HaGroup>,
    switches: map<string, seq<Lsp>>,
    lrps: map<string, Lrp>)

  datatype SegmentKind = VlanSegment | OverlaySegment | OtherSegment

  datatype Segment = Segment(
    id: string, networkId: string, kind: SegmentKind, physnet: string, segmentationId: int)

  /** What a subport needs besides its VLAN; a VNI of zero counts as no VNI. */
  datatype VlanInfo = VlanInfo(vni: Option<int>, segmentId: string)

  // ----- Chassis and groups ----------------------------------------------

  predicate Known(db: Databases, name: string) {
    exists c :: c in db.chassis && c.name == name
  }

  function ChassisWithPhysnet(db: Databases, physnet: string): set<string> {
    set c | c in db.chassis && physnet in c.physnets :: c.name
  }

  function GroupMembers(db: Databases): set<string> {
    set g, m | g in db.groups && m in g.members :: m
  }

  /** The (chassis, physnet) pairs that should have a trunk. */
  function ValidPairs(db: Databases): set<Key> {
    set c, p | c in db.chassis && p in c.physnets && c.name in GroupMembers(db) :: (c.name, p)
  }

  predicate DashFree(db: Databases) {
    forall k :: k in ValidPairs(db) ==> '-' !in k.1
  }

  // ----- Which chassis need a network's VLAN -----------------------------

  predicate HasLocalnetPort(db: Databases, networkId: string, physnet: string) {
    var ls := SwitchName(networkId);
    ls in db.switches && exists p :: p in db.switches[ls] && p.Localnet? && p.physnet == physnet
  }

  /** The chassis a router port names: its HA group if it has one, else its gateways. */
  function LrpMembers(lrp: Lrp): seq<string> {
    if lrp.group.Some? then lrp.group.value.members else lrp.gateways
  }

  function RouterPortNames(db: Databases, networkId: string): set<string> {
    var ls := SwitchName(networkId);
    if ls in db.switches
    then set p | p in db.switches[ls] && p.RouterPort? && p.lrp != "" :: p.lrp
    else {}
  }

  function RouterChassis(db: Databases, networkId: string): set<string> {
    set l, m | l in RouterPortNames(db, networkId) && l in db.lrps
               && m in LrpMembers(db.lrps[l]) && Known(db, m) :: m
  }

  function WantedBy(db: Databases, networkId: string, physnet: string): set<string> {
    (if HasLocalnetPort(db, networkId, physnet) then ChassisWithPhysnet(db, physnet) else {})
    + RouterChassis(db, networkId)
  }

  // ----- Required VLANs ---------------------------------------------------

  predicate Requires(db: Databases, seg: Segment, k: Key) {
    && seg.kind == VlanSegment && seg.physnet == k.1
    && k.0 in WantedBy(db, seg.networkId, k.1)
  }

  /** The VLANs the trunk of `k` must carry, whichever agent looks after it. */
  function RequiredVlans(db: Databases, segs: seq<Segment>, k: Key): set<int> {
    set s | s in segs && Requires(db, s, k) :: s.segmentationId
  }

  function NonZero(v: Option<int>): Option<int> {
    if v == Some(0) then None else v
  }

  /** The full pass reads the first overlay segment of the network. */
  function FirstVni(segs: seq<Segment>, networkId: string): Option<int> {
    if segs == [] then None
    else if segs[0].networkId == networkId && segs[0].kind == OverlaySegment
    then Some(segs[0].segmentationId)
    else FirstVni(segs[1..], networkId)
  }

  /** The targeted pass keeps the last one it sees. */
  function LastVni(segs: seq<Segment>, networkId: string): Option<int> {
    if segs == [] then None
    else
      var s := segs[|segs| - 1];
      if s.networkId == networkId && s.kind == OverlaySegment
      then Some(s.segmentationId)
      else LastVni(segs[..|segs| - 1], networkId)
  }

  /** The subport data the full pass may attach to VLAN `v` of pair `k`. */
  predicate InfoFor(db: Databases, segs: seq<Segment>, k: Key, v: int, info: VlanInfo) {
    exists s :: s in segs && Requires(db, s, k) && s.segmentationId == v
                && info == VlanInfo(FirstVni(segs, s.networkId), s.id)
  }

  predicate OverlayOf(s: Segment, networkId: string) {
    s.networkId == networkId && s.kind == OverlaySegment
  }

  predicate OneOverlay(segs: seq<Segment>, networkId: string) {
    forall i, j | 0 <= i < |segs| && 0 <= j < |segs|
      :: OverlayOf(segs[i], networkId) && OverlayOf(segs[j], networkId) ==> i == j
  }

  /** Position `i` holds the first overlay segment of the network. */
  predicate IsFirst(segs: seq<Segment>, networkId: string, i: nat) {
    i < |segs| && OverlayOf(segs[i], networkId) && forall k | 0 <= k < i :: !OverlayOf(segs[k], networkId)
  }

  predicate IsLast(segs: seq<Segment>, networkId: string, i: nat) {
    i < |segs| && OverlayOf(segs[i], networkId) && forall k | i < k < |segs| :: !OverlayOf(segs[k], networkId)
  }

  predicate NoOverlay(segs: seq<Segment>, networkId: string) {
    forall k | 0 <= k < |segs| :: !OverlayOf(segs[k], networkId)
  }

  /** Overlay segments of one network carry different ids. */
  predicate DistinctVnis(segs: seq<Segment>, networkId: string) {
    forall i, j | 0 <= i < j < |segs| && OverlayOf(segs[i], networkId) && OverlayOf(segs[j], networkId) ::
      segs[i].segmentationId != segs[j].segmentationId
  }

  lemma {:induction false} FirstVniIs(segs: seq<Segment>, networkId: string) returns (i: nat)
    ensures if NoOverlay(segs, networkId) then FirstVni(segs, networkId).None?
            else IsFirst(segs, networkId, i) && FirstVni(segs, networkId) == Some(segs[i].segmentationId)
  {
    i := 0;
    if segs != [] && !OverlayOf(segs[0], networkId) {
      i := FirstVniIs(segs[1..], networkId);
      i := i + 1;
      assert forall k | 0 < k < |segs| :: segs[k] == segs[1..][k - 1];
    }
  }

  lemma {:induction false} LastVniIs(segs: seq<Segment>, networkId: string) returns (i: nat)
    ensures if NoOverlay(segs, networkId) then LastVni(segs, networkId).None?
            else IsLast(segs, networkId, i) && LastVni(segs, networkId) == Some(segs[i].segmentationId)
  {
    i := 0;
    if segs != [] {
      i := |segs| - 1;
      if !OverlayOf(segs[i], networkId) {
        i := LastVniIs(segs[..i], networkId);
      }
    }
  }

  /** The first overlay id and the last one agree if and only if the first and the last
      overlay segment carry the same id; where ids differ, if and only if the network has
      at most one overlay segment. */
  lemma VniAgrees(segs: seq<Segment>, networkId: string)
    ensures FirstVni(segs, networkId) == LastVni(segs, networkId)
       <==> forall i: nat, j: nat | IsFirst(segs, networkId, i) && IsLast(segs, networkId, j) ::
              segs[i].segmentationId == segs[j].segmentationId
    ensures DistinctVnis(segs, networkId) ==>
              (FirstVni(segs, networkId) == LastVni(segs, networkId) <==> OneOverlay(segs, networkId))
    ensures OneOverlay(segs, networkId) ==> FirstVni(segs, networkId) == LastVni(segs, networkId)
  {
    var first := FirstVniIs(segs, networkId);
    var last := LastVniIs(segs, networkId);
    if !NoOverlay(segs, networkId) {
      forall i: nat, j: nat | IsFirst(segs, networkId, i) && IsLast(segs, networkId, j)
        ensures i == first && j == last
      {
      }
      if OneOverlay(segs, networkId) { assert first == last; }
      if first == last {
        assert forall k | 0 <= k < |segs| && OverlayOf(segs[k], networkId) :: k == first;
      }
    }
  }
}
