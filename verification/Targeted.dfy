/** What one targeted reconciliation of a single VLAN does to the view, and when it
    amounts to a full pass on the databases after the event. */
module Targeted {
  import opened Wrappers
  import opened Names
  import opened Ovn
  import opened Neutron
  import opened TrunkSpec

  /** The agent's trunks on one physical network. */
  function TrunksOn(db: Databases, mine: set<string>, physnet: string): set<string> {
    set k | k in MyPairs(db, mine) && k.1 == physnet :: TrunkName(k.0, k.1)
  }

  function Changed(vlans: set<int>, vlan: int, add: bool): set<int> {
    if add then vlans + {vlan} else vlans - {vlan}
  }

  function At(view: map<string, set<int>>, n: string): set<int> {
    if n in view then view[n] else {}
  }

  /** One VLAN added to, or removed from, the named trunks; missing ones are created. */
  function Touch(view: map<string, set<int>>, names: set<string>, vlan: int, add: bool): map<string, set<int>> {
    map n | n in view.Keys + names :: if n in names then Changed(At(view, n), vlan, add) else view[n]
  }

  function TargetView(view: map<string, set<int>>, db: Databases, mine: set<string>,
                      physnet: string, vlan: int, add: bool): map<string, set<int>> {
    Touch(view, TrunksOn(db, mine, physnet), vlan, add)
  }

  predicate SegmentMatches(s: Segment, networkId: string, physnet: string, vlan: int) {
    s.networkId == networkId && s.kind == VlanSegment && s.physnet == physnet && s.segmentationId == vlan
  }

  predicate SegmentListed(segs: seq<Segment>, networkId: string, physnet: string, vlan: int) {
    exists s :: s in segs && SegmentMatches(s, networkId, physnet, vlan)
  }

  /** No anchor port is left of a chassis that is in no HA group. */
  predicate NoStrays(s: Store, db: Databases, mine: set<string>, physnet: string) {
    forall c | c in ChassisWithPhysnet(db, physnet) && c in mine && c !in GroupMembers(db) ::
      !HasPort(s, AnchorPortName(c, physnet))
  }

  lemma TouchMore(view: map<string, set<int>>, names: set<string>, n: string, vlan: int, add: bool)
    ensures Touch(Touch(view, names, vlan, add), {n}, vlan, add) == Touch(view, names + {n}, vlan, add)
  {
    var once := Touch(view, names, vlan, add);
    assert forall vlans :: Changed(Changed(vlans, vlan, add), vlan, add) == Changed(vlans, vlan, add);
    assert Touch(once, {n}, vlan, add).Keys == Touch(view, names + {n}, vlan, add).Keys;
  }

  // ----- Refinement of the full pass ----------------------------------------

  /** The databases with one more localnet port on the network's switch. */
  function WithLocalnet(db: Databases, networkId: string, physnet: string, tag: int): Databases {
    var ls := SwitchName(networkId);
    db.(switches := db.switches[ls := (if ls in db.switches then db.switches[ls] else []) + [Localnet(physnet, tag)]])
  }

  /** Everything but the localnet port of (network, physnet) is the same in both. */
  ghost predicate SameButLocalnet(db: Databases, db': Databases, networkId: string, physnet: string) {
    && db'.chassis == db.chassis && db'.groups == db.groups
    && (forall n :: RouterChassis(db', n) == RouterChassis(db, n))
    && (forall n, p :: n != networkId || p != physnet ==> (HasLocalnetPort(db', n, p) <==> HasLocalnetPort(db, n, p)))
  }

  lemma WithLocalnetIs(db: Databases, networkId: string, physnet: string, tag: int)
    ensures SameButLocalnet(db, WithLocalnet(db, networkId, physnet, tag), networkId, physnet)
    ensures HasLocalnetPort(WithLocalnet(db, networkId, physnet, tag), networkId, physnet)
  {
    var db' := WithLocalnet(db, networkId, physnet, tag);
    var ls := SwitchName(networkId);
    var had := if ls in db.switches then db.switches[ls] else [];
    assert db'.switches[ls] == had + [Localnet(physnet, tag)];
    assert Localnet(physnet, tag) in db'.switches[ls];
    assert forall q :: q in db'.switches[ls] <==> q in had || q == Localnet(physnet, tag);
    assert forall m :: Known(db', m) <==> Known(db, m);
    forall n ensures RouterChassis(db', n) == RouterChassis(db, n) {
      assert RouterPortNames(db', n) == RouterPortNames(db, n);
    }
    forall n, p | n != networkId || p != physnet
      ensures HasLocalnetPort(db', n, p) <==> HasLocalnetPort(db, n, p)
    {
      assert SwitchName(n)[|SWITCH_PREFIX|..] == n && ls[|SWITCH_PREFIX|..] == networkId;
    }
  }

  /** Each network has at most one VLAN segment on the physical network. */
  predicate OnlySegment(segs: seq<Segment>, networkId: string, physnet: string, vlan: int) {
    forall s | s in segs && s.kind == VlanSegment && s.networkId == networkId && s.physnet == physnet ::
      s.segmentationId == vlan
  }

  lemma RequiredAfterAdd(db: Databases, db': Databases, segs: seq<Segment>, networkId: string, physnet: string,
                         vlan: int, k: Key)
    requires SameButLocalnet(db, db', networkId, physnet) && HasLocalnetPort(db', networkId, physnet)
    requires SegmentListed(segs, networkId, physnet, vlan) && OnlySegment(segs, networkId, physnet, vlan)
    requires k in ValidPairs(db)
    ensures RequiredVlans(db', segs, k)
         == RequiredVlans(db, segs, k) + if k.1 == physnet then {vlan} else {}
  {
  }

  /** On a view converged for the databases before a localnet port was added, the
      targeted add leaves what a full pass on the databases after it leaves. */
  lemma AddRefinesFullPass(view: map<string, set<int>>, db: Databases, segs: seq<Segment>, mine: set<string>,
                           networkId: string, physnet: string, vlan: int)
    requires DashFree(db) && view == PassView(view, db, segs, mine)
    requires SegmentListed(segs, networkId, physnet, vlan) && OnlySegment(segs, networkId, physnet, vlan)
    ensures var db' := WithLocalnet(db, networkId, physnet, vlan);
            TargetView(view, db', mine, physnet, vlan, true) == PassView(view, db', segs, mine)
  {
    var db' := WithLocalnet(db, networkId, physnet, vlan);
    WithLocalnetIs(db, networkId, physnet, vlan);
    assert ValidPairs(db') == ValidPairs(db);
    ConvergedView(view, db, segs, mine);
    var target, full := TargetView(view, db', mine, physnet, vlan, true), PassView(view, db', segs, mine);
    forall n ensures n in target <==> n in full
      ensures n in target && n in full ==> target[n] == full[n]
    {
      MyTrunksManaged(db, mine, n);
      OnPhysnet(db, mine, physnet, n);
      if Managed(db, mine, n) {
        RequiredAfterAdd(db, db', segs, networkId, physnet, vlan, ParseTrunkName(n).value);
      }
    }
    assert target.Keys == full.Keys;
  }

  /** The subport a targeted add creates carries the segment id of the one a full pass would
      create, and the same overlay id exactly when the first and the last overlay segment
      of the network agree on it. */
  lemma SameSubport(db: Databases, segs: seq<Segment>, networkId: string, physnet: string, vlan: int, k: Key,
                    full: VlanInfo, event: VlanInfo)
    requires k.1 == physnet && InfoFor(db, segs, k, vlan, full)
    requires exists s :: s in segs && SegmentMatches(s, networkId, physnet, vlan) && s.id == event.segmentId
    requires event.vni == LastVni(segs, networkId)
    requires VlanUnique(segs, networkId, physnet, vlan)
    requires forall s, s' | s in segs && s' in segs ::
               SegmentMatches(s, networkId, physnet, vlan) && SegmentMatches(s', networkId, physnet, vlan) ==> s == s'
    ensures full.segmentId == event.segmentId && full.vni == FirstVni(segs, networkId)
    ensures DistinctVnis(segs, networkId) ==> (full == event <==> OneOverlay(segs, networkId))
    ensures OneOverlay(segs, networkId) ==> full == event
  {
    VniAgrees(segs, networkId);
    var s :| s in segs && Requires(db, s, k) && s.segmentationId == vlan
             && full == VlanInfo(FirstVni(segs, s.networkId), s.id);
    assert SegmentMatches(s, networkId, physnet, vlan);
  }

  lemma ConvergedView(view: map<string, set<int>>, db: Databases, segs: seq<Segment>, mine: set<string>)
    requires DashFree(db) && view == PassView(view, db, segs, mine)
    ensures forall n | n in view :: !Orphan(db, n)
    ensures forall n | Managed(db, mine, n) :: n in view && view[n] == RequiredVlans(db, segs, ParseTrunkName(n).value)
  {
    forall n | Managed(db, mine, n) ensures n in view {
      MyTrunksManaged(db, mine, n);
    }
  }

  lemma OnPhysnet(db: Databases, mine: set<string>, physnet: string, n: string)
    requires DashFree(db)
    ensures n in TrunksOn(db, mine, physnet) <==> Managed(db, mine, n) && ParseTrunkName(n).value.1 == physnet
  {
    if n in TrunksOn(db, mine, physnet) {
      var k :| k in MyPairs(db, mine) && k.1 == physnet && n == TrunkName(k.0, k.1);
      TrunkNameRoundTrip(k.0, k.1);
    }
    if Managed(db, mine, n) {
      ParsedTrunkName(n);
    }
  }

  /** The segments after the event: those of (network, physnet) may be gone. */
  predicate SegmentsMayGo(segs: seq<Segment>, segs': seq<Segment>, networkId: string, physnet: string) {
    && (forall s | s in segs' :: s in segs)
    && (forall s | s in segs && !(s.kind == VlanSegment && s.networkId == networkId && s.physnet == physnet) ::
        s in segs')
  }

  predicate VlanUnique(segs: seq<Segment>, networkId: string, physnet: string, vlan: int) {
    forall s | s in segs && s.kind == VlanSegment && s.physnet == physnet && s.segmentationId == vlan ::
      s.networkId == networkId
  }

  lemma RequiredAfterRemove(db: Databases, db': Databases, segs: seq<Segment>, segs': seq<Segment>,
                            networkId: string, physnet: string, vlan: int, k: Key)
    requires SameButLocalnet(db, db', networkId, physnet) && !HasLocalnetPort(db', networkId, physnet)
    requires SegmentsMayGo(segs, segs', networkId, physnet)
    requires OnlySegment(segs, networkId, physnet, vlan) && VlanUnique(segs, networkId, physnet, vlan)
    ensures k.1 != physnet ==> RequiredVlans(db', segs', k) == RequiredVlans(db, segs, k)
    ensures k.1 == physnet ==> RequiredVlans(db', segs', k) - {vlan} == RequiredVlans(db, segs, k) - {vlan}
  {
  }

  /** After a localnet port went away, the targeted remove leaves what a full pass
      leaves exactly when no trunk of the agent still requires the VLAN there,
      for instance through an HA router port. */
  lemma RemoveRefinesFullPass(view: map<string, set<int>>, db: Databases, db': Databases, segs: seq<Segment>,
                              segs': seq<Segment>, mine: set<string>, networkId: string, physnet: string, vlan: int)
    requires DashFree(db) && view == PassView(view, db, segs, mine)
    requires SameButLocalnet(db, db', networkId, physnet) && !HasLocalnetPort(db', networkId, physnet)
    requires SegmentsMayGo(segs, segs', networkId, physnet)
    requires OnlySegment(segs, networkId, physnet, vlan) && VlanUnique(segs, networkId, physnet, vlan)
    ensures TargetView(view, db', mine, physnet, vlan, false) == PassView(view, db', segs', mine)
       <==> forall k | k in MyPairs(db', mine) && k.1 == physnet :: vlan !in RequiredVlans(db', segs', k)
  {
    var target, full := TargetView(view, db', mine, physnet, vlan, false), PassView(view, db', segs', mine);
    forall n
      ensures n in target <==> n in full
      ensures n in full && n !in TrunksOn(db', mine, physnet) ==> target[n] == full[n]
      ensures n in full && n in TrunksOn(db', mine, physnet) ==> target[n] == full[n] - {vlan}
    {
      RemoveAt(view, db, db', segs, segs', mine, networkId, physnet, vlan, n);
    }
    assert ValidPairs(db') == ValidPairs(db);
    assert forall k | k in MyPairs(db', mine) :: '-' !in k.1;
    var names := TrunksOn(db', mine, physnet);
    hide RequiredVlans, DashFree, SameButLocalnet, SegmentsMayGo, OnlySegment, VlanUnique, ValidPairs, PassView,
         TargetView;
    assert target.Keys == full.Keys;
    EqualWithout(target, full, names, vlan);
    forall k | k in MyPairs(db', mine) && k.1 == physnet
      ensures var n := TrunkName(k.0, k.1); n in names && n in full && full[n] == RequiredVlans(db', segs', k)
    {
      FullAt(view, db', segs', mine, k);
    }
    assert forall n | n in names :: exists k :: k in MyPairs(db', mine) && k.1 == physnet && n == TrunkName(k.0, k.1);
  }

  lemma EqualWithout(target: map<string, set<int>>, full: map<string, set<int>>, names: set<string>, vlan: int)
    requires target.Keys == full.Keys
    requires forall n | n in full :: target[n] == if n in names then full[n] - {vlan} else full[n]
    ensures target == full <==> forall n | n in full && n in names :: vlan !in full[n]
  {
    forall n | n in full ensures target[n] == full[n] <==> n !in names || vlan !in full[n] {
      assert vlan !in full[n] ==> full[n] - {vlan} == full[n];
    }
  }

  lemma FullAt(view: map<string, set<int>>, db: Databases, segs: seq<Segment>, mine: set<string>, k: Key)
    requires k in MyPairs(db, mine) && '-' !in k.1
    ensures TrunkName(k.0, k.1) in PassView(view, db, segs, mine)
    ensures PassView(view, db, segs, mine)[TrunkName(k.0, k.1)] == RequiredVlans(db, segs, k)
  {
    TrunkNameRoundTrip(k.0, k.1);
    CleanupSparesValidPairs(db, k);
  }

  lemma RemoveAt(view: map<string, set<int>>, db: Databases, db': Databases, segs: seq<Segment>,
                 segs': seq<Segment>, mine: set<string>, networkId: string, physnet: string, vlan: int, n: string)
    requires DashFree(db) && view == PassView(view, db, segs, mine)
    requires SameButLocalnet(db, db', networkId, physnet) && !HasLocalnetPort(db', networkId, physnet)
    requires SegmentsMayGo(segs, segs', networkId, physnet)
    requires OnlySegment(segs, networkId, physnet, vlan) && VlanUnique(segs, networkId, physnet, vlan)
    ensures ValidPairs(db') == ValidPairs(db)
    ensures var target, full := TargetView(view, db', mine, physnet, vlan, false), PassView(view, db', segs', mine);
            && (n in target <==> n in full)
            && (n in full && n !in TrunksOn(db', mine, physnet) ==> target[n] == full[n])
            && (n in full && n in TrunksOn(db', mine, physnet) ==> target[n] == full[n] - {vlan})
  {
    assert ValidPairs(db') == ValidPairs(db);
    ConvergedView(view, db, segs, mine);
    MyTrunksManaged(db, mine, n);
    OnPhysnet(db, mine, physnet, n);
    if Managed(db, mine, n) {
      RequiredAfterRemove(db, db', segs, segs', networkId, physnet, vlan, ParseTrunkName(n).value);
    }
  }
}
