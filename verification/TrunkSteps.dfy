/** What the steps of a pass may do to the store, and how those effects add up. */
module TrunkSteps {
  import opened Wrappers
  import opened Names
  import opened Ovn
  import opened Neutron
  import opened TrunkSpec

  // ----- How the store may evolve -----------------------------------------

  /** Discovery leaves ports alone, except for filling in missing links. */
  predicate PortsEvolve(a: Store, b: Store) {
    forall p | p in a.ports ::
      && p in b.ports && b.ports[p].name == a.ports[p].name
      && b.ports[p].networkId == a.ports[p].networkId && b.ports[p].owner == a.ports[p].owner
      && (a.ports[p].profile.links != [] || !StartsWith(a.ports[p].name, ANCHOR_PREFIX) ==> b.ports[p] == a.ports[p])
  }

  /** Discovery only adds empty trunks, for pairs in `ks`. */
  predicate TrunksGrow(a: Store, b: Store, ks: set<Key>) {
    && (forall t | t in a.trunks :: t in b.trunks && b.trunks[t] == a.trunks[t])
    && (forall t | t in b.trunks && t !in a.trunks ::
          b.trunks[t].subs == map[] && exists k :: k in ks && b.trunks[t].name == TrunkName(k.0, k.1))
  }

  predicate Discovered(a: Store, b: Store, ks: set<Key>) {
    b.networks == a.networks && PortsEvolve(a, b) && TrunksGrow(a, b, ks)
  }

  // ----- Where new networks and ports come from --------------------------

  /** Networks are only added, under these names. */
  predicate NetworksGrow(a: Store, b: Store, names: set<string>) {
    && (forall n | n in a.networks :: n in b.networks && b.networks[n] == a.networks[n])
    && (forall n | n in b.networks && n !in a.networks :: b.networks[n] in names)
  }

  /** The networks an agent's pass ensures: the anchor network, and one for each of its groups. */
  function InfraNames(db: Databases, mine: set<string>, anchorNetwork: string): set<string> {
    {anchorNetwork} + set g | g in db.groups && GroupIsMine(g, mine) :: GroupNetworkName(g.name)
  }

  lemma GrowRefl(s: Store, names: set<string>)
    ensures NetworksGrow(s, s, names)
  {
  }

  lemma GrowStep(a: Store, b: Store, c: Store, names: set<string>, name: string)
    requires NetworksGrow(a, b, names) && NetworksGrow(b, c, {name}) && name in names
    ensures NetworksGrow(a, c, names)
    ensures forall n | HasNetwork(b, n) :: HasNetwork(c, n)
  {
    forall x | HasNetwork(b, x) ensures HasNetwork(c, x) {
      var n :| n in b.networks && b.networks[n] == x;
      assert n in c.networks;
    }
  }

  lemma IsInfraName(db: Databases, mine: set<string>, anchorNetwork: string)
    ensures anchorNetwork in InfraNames(db, mine, anchorNetwork)
    ensures forall g | g in db.groups && GroupIsMine(g, mine) ::
              GroupNetworkName(g.name) in InfraNames(db, mine, anchorNetwork)
  {
  }

  /** `n` is the network of the first of the chassis' groups that has one. */
  predicate FirstGroupNetwork(s: Store, db: Databases, systemId: string, n: nat) {
    exists i :: 0 <= i < |db.groups| && FirstGroupAt(s, db, systemId, i)
        && IsNetwork(s, n, GroupNetworkName(db.groups[i].name))
  }

  predicate IsNetwork(s: Store, n: nat, name: string) {
    n in s.networks && s.networks[n] == name
  }

  /** Group `i` has the chassis and a network; no earlier group of the chassis has one. */
  predicate FirstGroupAt(s: Store, db: Databases, systemId: string, i: nat) {
    && i < |db.groups| && systemId in db.groups[i].members && HasNetwork(s, GroupNetworkName(db.groups[i].name))
    && forall j | 0 <= j < i && systemId in db.groups[j].members :: !HasNetwork(s, GroupNetworkName(db.groups[j].name))
  }

  predicate SamePort(p: Port, q: Port) {
    p.name == q.name && p.networkId == q.networkId && p.owner == q.owner
  }

  /** An anchor port of a pair, on the network of its chassis' first group. */
  predicate AnchorPlaced(s: Store, db: Databases, k: Key, p: Port) {
    p.name == AnchorPortName(k.0, k.1) && p.owner == AnchorOwner && FirstGroupNetwork(s, db, k.0, p.networkId)
  }

  /** All ports but anchor ports of `ks` were there before. */
  predicate AnchorsPlaced(db: Databases, a: Store, b: Store, ks: set<Key>) {
    forall p | p in b.ports ::
      (p in a.ports && SamePort(b.ports[p], a.ports[p])) || exists k :: k in ks && AnchorPlaced(a, db, k, b.ports[p])
  }

  lemma AnchorsPlacedTrans(db: Databases, a: Store, b: Store, c: Store, ks: set<Key>, k: Key)
    requires AnchorsPlaced(db, a, b, ks) && AnchorsPlaced(db, b, c, {k}) && b.networks == a.networks && k in ks
    ensures AnchorsPlaced(db, a, c, ks)
  {
    hide FirstGroupAt;
    forall k', p: Port | AnchorPlaced(b, db, k', p) ensures AnchorPlaced(a, db, k', p) {
      SameNetworks(a, b, db, k'.0, p.networkId);
    }
  }

  lemma SameNetworks(a: Store, b: Store, db: Databases, systemId: string, n: nat)
    requires b.networks == a.networks && FirstGroupNetwork(b, db, systemId, n)
    ensures FirstGroupNetwork(a, db, systemId, n)
  {
    var i :| 0 <= i < |db.groups| && FirstGroupAt(b, db, systemId, i)
        && IsNetwork(b, n, GroupNetworkName(db.groups[i].name));
    assert FirstGroupAt(a, db, systemId, i) && IsNetwork(a, n, GroupNetworkName(db.groups[i].name));
  }

  /** Ports of `b` were there before, just so. */
  predicate NoneNew(a: Store, b: Store) {
    forall p | p in b.ports :: p in a.ports && b.ports[p] == a.ports[p]
  }

  /** Or else they are subports on network `net`. */
  predicate NewOn(a: Store, b: Store, net: nat) {
    forall p | p in b.ports ::
      (p in a.ports && b.ports[p] == a.ports[p]) || (b.ports[p].owner == SubportOwner && b.ports[p].networkId == net)
  }

  lemma NewOnRefl(s: Store, net: nat)
    ensures NewOn(s, s, net)
  {
  }

  lemma NewOnTrans(a: Store, b: Store, c: Store, net: nat)
    requires NewOn(a, b, net) && NewOn(b, c, net)
    ensures NewOn(a, c, net)
  {
  }

  /** An anchor port of the pair, on the network of a group of its chassis. */
  predicate AnchorOn(s: Store, db: Databases, k: Key, p: Port) {
    && p.name == AnchorPortName(k.0, k.1) && p.owner == AnchorOwner
    && exists g :: g in db.groups && k.0 in g.members && IsNetwork(s, p.networkId, GroupNetworkName(g.name))
  }

  predicate PortPlaced(s: Store, db: Databases, ks: set<Key>, anchorNetwork: string, p: Port) {
    || (p.owner == SubportOwner && IsNetwork(s, p.networkId, anchorNetwork))
    || exists k :: k in ks && AnchorOn(s, db, k, p)
  }

  /** Ports that were not there before are subports on the anchor network, or anchor ports of
      `ks` on networks of their groups. */
  predicate PortsPlaced(db: Databases, ks: set<Key>, anchorNetwork: string, a: Store, b: Store) {
    forall p | p in b.ports ::
      (p in a.ports && SamePort(b.ports[p], a.ports[p])) || PortPlaced(b, db, ks, anchorNetwork, b.ports[p])
  }

  lemma PlacedAnchors(db: Databases, ks: set<Key>, anchorNetwork: string, a: Store, b: Store)
    requires AnchorsPlaced(db, a, b, ks) && b.networks == a.networks
    ensures PortsPlaced(db, ks, anchorNetwork, a, b)
  {
    forall k, p: Port | AnchorPlaced(a, db, k, p) ensures AnchorOn(b, db, k, p) {
      var i :| 0 <= i < |db.groups| && FirstGroupAt(a, db, k.0, i)
          && IsNetwork(a, p.networkId, GroupNetworkName(db.groups[i].name));
      assert db.groups[i] in db.groups && IsNetwork(b, p.networkId, GroupNetworkName(db.groups[i].name));
    }
  }

  lemma PlacedSubports(db: Databases, ks: set<Key>, anchorNetwork: string, a: Store, b: Store, net: nat)
    requires NewOn(a, b, net) && b.networks == a.networks && IsNetwork(a, net, anchorNetwork)
    ensures PortsPlaced(db, ks, anchorNetwork, a, b)
  {
  }

  lemma AnchorStaysOn(db: Databases, ks: set<Key>, anchorNetwork: string, b: Store, c: Store, p: Port)
    requires PortPlaced(b, db, ks, anchorNetwork, p) && c.networks == b.networks
    ensures PortPlaced(c, db, ks, anchorNetwork, p)
  {
    if k :| k in ks && AnchorOn(b, db, k, p) {
      var g :| g in db.groups && k.0 in g.members && IsNetwork(b, p.networkId, GroupNetworkName(g.name));
      assert IsNetwork(c, p.networkId, GroupNetworkName(g.name));
      assert AnchorOn(c, db, k, p);
    }
  }

  lemma SamePlace(db: Databases, ks: set<Key>, anchorNetwork: string, s: Store, p: Port, q: Port)
    requires PortPlaced(s, db, ks, anchorNetwork, p) && SamePort(q, p)
    ensures PortPlaced(s, db, ks, anchorNetwork, q)
  {
    if k :| k in ks && AnchorOn(s, db, k, p) {
      assert AnchorOn(s, db, k, q);
    }
  }

  lemma PortsPlacedTrans(db: Databases, ks: set<Key>, anchorNetwork: string, a: Store, b: Store, c: Store)
    requires PortsPlaced(db, ks, anchorNetwork, a, b) && PortsPlaced(db, ks, anchorNetwork, b, c)
               && c.networks == b.networks
    ensures PortsPlaced(db, ks, anchorNetwork, a, c)
  {
    hide PortPlaced;
    forall p | p in c.ports && !(p in a.ports && SamePort(c.ports[p], a.ports[p]))
      ensures PortPlaced(c, db, ks, anchorNetwork, c.ports[p])
    {
      if p in b.ports && SamePort(c.ports[p], b.ports[p]) {
        AnchorStaysOn(db, ks, anchorNetwork, b, c, b.ports[p]);
        SamePlace(db, ks, anchorNetwork, c, b.ports[p], c.ports[p]);
      }
    }
  }

  lemma PortsPlacedMono(db: Databases, ks: set<Key>, ks': set<Key>, anchorNetwork: string, a: Store, b: Store)
    requires PortsPlaced(db, ks, anchorNetwork, a, b) && ks <= ks'
    ensures PortsPlaced(db, ks', anchorNetwork, a, b)
  {
  }

  lemma DiscoveredTrans(a: Store, b: Store, c: Store, ks: set<Key>)
    requires Discovered(a, b, ks) && Discovered(b, c, ks)
    ensures Discovered(a, c, ks)
  {
  }

  lemma DiscoveredRefl(a: Store, ks: set<Key>)
    ensures Discovered(a, a, ks)
  {
  }

  lemma DiscoveredMono(a: Store, b: Store, k: Key, ks: set<Key>)
    requires Discovered(a, b, {k}) && k in ks
    ensures Discovered(a, b, ks)
  {
  }

  /** Anchor port first, then perhaps the trunk. */
  lemma TrunkMade(a: Store, b: Store, c: Store, k: Key, made: Option<nat>, parent: nat)
    requires PortsEvolve(a, b) && b.networks == a.networks && b.trunks == a.trunks
    requires c.networks == b.networks && c.ports == b.ports
    requires made.None? ==> c.trunks == b.trunks
    requires made.Some? ==> made.value !in b.trunks
                            && c.trunks == b.trunks[made.value := Trunk(TrunkName(k.0, k.1), parent, map[])]
    ensures Discovered(a, c, {k})
    ensures forall links :: AnchorReady(b, k, links) ==> AnchorReady(c, k, links)
  {
  }

  /** From here on ports are only created fresh or deleted, never changed. */
  predicate PortsKept(a: Store, n0: nat, b: Store) {
    forall p | p in b.ports :: (p in a.ports && b.ports[p] == a.ports[p]) || p >= n0
  }

  predicate SameTrunks(a: Store, b: Store) {
    && a.trunks.Keys == b.trunks.Keys
    && forall t | t in a.trunks ::
         b.trunks[t].name == a.trunks[t].name && b.trunks[t].parent == a.trunks[t].parent
  }

  predicate SubportsChange(a: Store, n0: nat, b: Store) {
    b.networks == a.networks && PortsKept(a, n0, b) && SameTrunks(a, b)
  }

  /** Cleanup of trunks: only orphans lose subports or go. */
  predicate Cleaned(db: Databases, a: Store, n0: nat, b: Store) {
    && b.networks == a.networks && PortsKept(a, n0, b)
    && (forall t | t in b.trunks ::
          && t in a.trunks && b.trunks[t].name == a.trunks[t].name && b.trunks[t].parent == a.trunks[t].parent
          && b.trunks[t].subs.Keys <= a.trunks[t].subs.Keys)
    && (forall t | t in a.trunks && !Orphan(db, a.trunks[t].name) :: t in b.trunks && b.trunks[t] == a.trunks[t])
  }

  /** The data of a subport. */
  predicate SubportData(p: Port, physnet: string, info: VlanInfo) {
    && p.owner == SubportOwner && !StartsWith(p.name, ANCHOR_PREFIX)
    && p.profile == Profile("", physnet, info.segmentId, NonZero(info.vni), [])
  }

  /** The subport a pass adds for VLAN `v`. */
  predicate SubportPort(p: Port, k: Key, v: int, info: VlanInfo) {
    SubportData(p, k.1, info) && p.name == SubportName(k.0, k.1, Decimal(v))
  }

  /** What one reconciled trunk looks like afterwards, whatever calls raised. */
  predicate SubportsMoved(a: Store, b: Store, t: nat, k: Key, want: map<int, VlanInfo>)
    requires t in a.trunks && t in b.trunks
  {
    var before := a.trunks[t].subs;
    var after := b.trunks[t].subs;
    && Between(before.Keys, want.Keys, after.Keys)
    && forall v | v in after ::
         if v in before then after[v] == before[v]
         else v in want && after[v] in b.ports && SubportPort(b.ports[after[v]], k, v, want[v])
  }

  /** The VLANs a fault-free trunk reconciliation ends with: a VLAN without a
      segment id is not added. */
  function Reached(before: set<int>, want: map<int, VlanInfo>): set<int> {
    set v | v in want && (v in before || want[v].segmentId != "")
  }

  lemma SymDiffCard(before: set<int>, want: set<int>, v: int)
    ensures v in want && v !in before ==> |SymDiff(before + {v}, want)| == |SymDiff(before, want)| - 1
    ensures v in before && v !in want ==> |SymDiff(before - {v}, want)| == |SymDiff(before, want)| - 1
  {
    if v in want && v !in before {
      assert SymDiff(before + {v}, want) == SymDiff(before, want) - {v};
    } else if v in before && v !in want {
      assert SymDiff(before - {v}, want) == SymDiff(before, want) - {v};
    }
  }

  type VlanMap = map<Key, map<int, VlanInfo>>

  predicate Holds(req: VlanMap, k: Key, v: int) {
    k in req && v in req[k]
  }

  function Put(req: VlanMap, k: Key, v: int, info: VlanInfo): (r: VlanMap)
    ensures forall k', v' :: Holds(r, k', v') <==> Holds(req, k', v') || (k' == k && v' == v)
    ensures Holds(r, k, v) && r[k][v] == info
    ensures forall k', v' | Holds(req, k', v') && (k' != k || v' != v) ::
              Holds(r, k', v') && r[k'][v'] == req[k'][v']
  {
    req[k := (if k in req then req[k] else map[])[v := info]]
  }

  /** The required map the full pass computes for the agent's chassis. */
  ghost predicate RequiredMap(db: Databases, segs: seq<Segment>, mine: set<string>, req: VlanMap) {
    && (forall k, v :: Holds(req, k, v) <==> k.0 in mine && v in RequiredVlans(db, segs, k))
    && (forall k, v | Holds(req, k, v) :: InfoFor(db, segs, k, v, req[k][v]))
  }

  // ----- Grouping segments by network --------------------------------------

  function SegmentsOf(segs: seq<Segment>, networkId: string, kind: SegmentKind): seq<Segment> {
    if segs == [] then []
    else
      var n := |segs| - 1;
      SegmentsOf(segs[..n], networkId, kind)
      + if segs[n].networkId == networkId && segs[n].kind == kind then [segs[n]] else []
  }

  predicate Grouped(segs: seq<Segment>, groups: map<string, seq<Segment>>, kind: SegmentKind) {
    && (forall s | s in segs :: s.networkId in groups)
    && (forall n | n in groups :: groups[n] == SegmentsOf(segs, n, kind))
  }

  lemma GroupedStep(segs: seq<Segment>, s: Segment, kind: SegmentKind)
    ensures forall n :: SegmentsOf(segs + [s], n, kind)
                     == SegmentsOf(segs, n, kind) + if s.networkId == n && s.kind == kind then [s] else []
  {
  }

  lemma {:induction false} GroupMember(segs: seq<Segment>, n: string, kind: SegmentKind, s: Segment)
    ensures s in SegmentsOf(segs, n, kind) <==> s in segs && s.networkId == n && s.kind == kind
  {
    if segs != [] {
      var last := |segs| - 1;
      assert segs == segs[..last] + [segs[last]];
      GroupMember(segs[..last], n, kind, s);
    }
  }

  lemma NoneYet(segs: seq<Segment>, n: string, kind: SegmentKind)
    requires forall s | s in segs :: s.networkId != n
    ensures SegmentsOf(segs, n, kind) == []
  {
  }

  /** One segment into its network's group, which it opens if need be. */
  function AddToGroup(ghost segs: seq<Segment>, groups: map<string, seq<Segment>>, s: Segment, kind: SegmentKind)
    : (r: map<string, seq<Segment>>)
    requires Grouped(segs, groups, kind)
    ensures Grouped(segs + [s], r, kind) && r.Keys == groups.Keys + {s.networkId}
  {
    GroupedStep(segs, s, kind);
    var grown := if s.networkId in groups then groups else groups[s.networkId := []];
    assert s.networkId !in groups ==> SegmentsOf(segs, s.networkId, kind) == [] by {
      if s.networkId !in groups { NoneYet(segs, s.networkId, kind); }
    }
    if s.kind == kind then grown[s.networkId := grown[s.networkId] + [s]] else grown
  }

  /** The first overlay segment of the group is the first in the listing. */
  lemma {:induction false} GroupFirst(segs: seq<Segment>, n: string)
    ensures FirstVni(segs, n)
         == var g := SegmentsOf(segs, n, OverlaySegment); if g == [] then None else Some(g[0].segmentationId)
  {
    if segs != [] {
      var last := |segs| - 1;
      assert segs == segs[..last] + [segs[last]];
      GroupFirst(segs[..last], n);
      FirstVniSnoc(segs[..last], segs[last], n);
    }
  }

  lemma {:induction false} FirstVniSnoc(segs: seq<Segment>, s: Segment, n: string)
    ensures FirstVni(segs + [s], n)
         == if FirstVni(segs, n).Some? then FirstVni(segs, n)
            else if OverlayOf(s, n) then Some(s.segmentationId) else None
  {
    if segs != [] {
      assert (segs + [s])[1..] == segs[1..] + [s];
      FirstVniSnoc(segs[1..], s, n);
    }
  }

  ghost predicate SomeRequires(db: Databases, done: set<Segment>, k: Key, v: int) {
    exists s :: s in done && Requires(db, s, k) && s.segmentationId == v
  }

  /** The required map as far as the segments in `done` go. */
  ghost predicate PartialMap(db: Databases, segs: seq<Segment>, mine: set<string>, done: set<Segment>,
                             req: VlanMap) {
    && (forall k, v :: Holds(req, k, v) <==> k.0 in mine && SomeRequires(db, done, k, v))
    && (forall k, v | Holds(req, k, v) :: InfoFor(db, segs, k, v, req[k][v]))
  }

  lemma NothingYet(db: Databases, segs: seq<Segment>, mine: set<string>)
    ensures PartialMap(db, segs, mine, {}, map[])
  {
  }

  lemma PartialIsAll(db: Databases, segs: seq<Segment>, mine: set<string>, done: set<Segment>,
                     req: VlanMap)
    requires PartialMap(db, segs, mine, done, req)
    requires forall s | s in done :: s in segs
    requires forall s | s in segs && s.kind == VlanSegment :: s in done
    ensures RequiredMap(db, segs, mine, req)
  {
  }

  predicate FoundNamed(s: Store, found: map<Key, nat>) {
    forall k | k in found :: found[k] in s.trunks && s.trunks[found[k]].name == TrunkName(k.0, k.1)
  }

  lemma ClientValid(c: Client)
    requires c.Valid()
    ensures StoreValid(c.St())
  {
  }

  lemma FoundNamedStep(s1: Store, s2: Store, ks: set<Key>, found: map<Key, nat>, k: Key, id: Option<nat>)
    requires FoundNamed(s1, found) && Discovered(s1, s2, ks)
    ensures FoundNamed(s2, found)
    ensures id.Some? && id.value in s2.trunks && s2.trunks[id.value].name == TrunkName(k.0, k.1) ==>
              FoundNamed(s2, found[k := id.value])
  {
  }

  /** What is left to attach or detach on the trunk. */
  ghost function Distance(s: Store, t: nat, want: map<int, VlanInfo>): nat
    requires t in s.trunks
  {
    |SymDiff(s.trunks[t].subs.Keys, want.Keys)|
  }

  lemma ClientFresh(c: Client)
    requires c.Valid()
    ensures StoreValid(c.St()) && c.St().trunks == c.trunks && c.St().ports == c.ports
    ensures forall p | p in c.ports :: p < c.nextId
  {
  }

  /** The first loop has still to look at `todo`; `clean` when nothing raised. */
  ghost predicate Adding(had: set<int>, want: map<int, VlanInfo>, todo: set<int>, has: set<int>, clean: bool) {
    && todo <= want.Keys - had
    && had <= has && todo !! has
    && (clean ==> forall v | v in want && v !in had && v !in todo :: v in has <==> want[v].segmentId != "")
    && (forall v | v in has :: v in had || v in want)
  }

  lemma AddingStart(had: set<int>, want: map<int, VlanInfo>)
    ensures Adding(had, want, want.Keys - had, had, true)
  {
  }

  lemma AddingAt(had: set<int>, want: map<int, VlanInfo>, todo: set<int>, has: set<int>, v: int)
    requires v in todo
    ensures forall clean :: Adding(had, want, todo, has, clean) ==>
              v in want && v !in had && v !in has && !(want.Keys <= had)
  {
  }

  lemma AddingStep(had: set<int>, want: map<int, VlanInfo>, todo: set<int>, has: set<int>, v: int, made: bool)
    requires v in todo && v in want
    ensures Adding(had, want, todo, has, false) ==>
              Adding(had, want, todo - {v}, if made then has + {v} else has, false)
    ensures Adding(had, want, todo, has, true) && (made <==> want[v].segmentId != "") ==>
              Adding(had, want, todo - {v}, if made then has + {v} else has, true)
    ensures Adding(had, want, todo, has, true) ==> Adding(had, want, todo, has, false)
  {
  }

  lemma AddingEnd(had: set<int>, want: map<int, VlanInfo>, has: set<int>)
    ensures forall clean :: Adding(had, want, {}, has, clean) ==> had <= has
    ensures Adding(had, want, {}, has, true) ==> has == Reached(had, want) + (had - want.Keys)
  {
    if Adding(had, want, {}, has, true) {
      assert forall v :: v in has <==> v in Reached(had, want) + (had - want.Keys);
    }
  }

  lemma ReachedAvoids(had: set<int>, want: map<int, VlanInfo>, v: int)
    requires v !in want
    ensures v !in Reached(had, want)
  {
  }

  /** Where the two loops of a trunk reconciliation may be. */
  ghost predicate Progress(s0: Store, n0: nat, s: Store, t: nat, k: Key, want: map<int, VlanInfo>) {
    && t in s0.trunks && SubportsChange(s0, n0, s)
    && (forall t' | t' in s0.trunks && t' != t :: s.trunks[t'] == s0.trunks[t'])
    && s.trunks[t].subs.Keys <= s0.trunks[t].subs.Keys + want.Keys
    && forall v | v in s.trunks[t].subs ::
         if v in s0.trunks[t].subs then s.trunks[t].subs[v] == s0.trunks[t].subs[v]
         else v in want && s.trunks[t].subs[v] in s.ports && SubportPort(s.ports[s.trunks[t].subs[v]], k, v, want[v])
  }

  lemma NothingMoved(s0: Store, n0: nat, t: nat, k: Key, want: map<int, VlanInfo>)
    ensures SubportsChange(s0, n0, s0)
    ensures t in s0.trunks ==> SubportsMoved(s0, s0, t, k, want) && Progress(s0, n0, s0, t, k, want)
  {
  }

  lemma ProgressStart(s0: Store, n0: nat, t: nat, k: Key, want: map<int, VlanInfo>)
    requires t in s0.trunks
    ensures Progress(s0, n0, s0, t, k, want)
  {
  }

  lemma ProgressKeeps(s0: Store, n0: nat, s: Store, t: nat, k: Key, want: map<int, VlanInfo>, v: int)
    requires Progress(s0, n0, s, t, k, want) && v in s0.trunks[t].subs && v in s.trunks[t].subs
    ensures s.trunks[t].subs[v] == s0.trunks[t].subs[v]
  {
  }

  lemma ProgressEnd(s0: Store, n0: nat, s: Store, t: nat, k: Key, want: map<int, VlanInfo>)
    requires Progress(s0, n0, s, t, k, want)
    requires s0.trunks[t].subs.Keys * want.Keys <= s.trunks[t].subs.Keys
    ensures SubportsChange(s0, n0, s) && SubportsMoved(s0, s, t, k, want)
    ensures forall t' | t' in s0.trunks && t' != t :: s.trunks[t'] == s0.trunks[t']
  {
  }

  lemma PortsKeptTrans(s0: Store, n0: nat, s1: Store, n1: nat, s2: Store)
    requires PortsKept(s0, n0, s1) && PortsKept(s1, n1, s2) && n0 <= n1
    ensures PortsKept(s0, n0, s2)
  {
  }

  lemma ProgressAdd(s0: Store, n0: nat, s1: Store, n1: nat, s2: Store, t: nat, k: Key,
                    want: map<int, VlanInfo>, v: int, made: Option<nat>)
    requires Progress(s0, n0, s1, t, k, want) && n0 <= n1 && v in want && v !in s0.trunks[t].subs
    requires v !in s1.trunks[t].subs
    requires s2.networks == s1.networks && PortsKept(s1, n1, s2)
    requires forall p | p in s1.ports :: p in s2.ports && p < n1
    requires made.None? ==> s2.trunks == s1.trunks
    requires made.Some? ==> made.value !in s1.ports && made.value in s2.ports
                            && SubportPort(s2.ports[made.value], k, v, want[v])
                            && s2.trunks == Attach(s1, t, v, made.value).trunks
    ensures Progress(s0, n0, s2, t, k, want) && t in s2.trunks
    ensures s2.trunks[t].subs.Keys == if made.Some? then s1.trunks[t].subs.Keys + {v} else s1.trunks[t].subs.Keys
    ensures Distance(s2, t, want) == Distance(s1, t, want) - if made.Some? then 1 else 0
  {
    hide SubportPort, PortsKept, SymDiff;
    PortsKeptTrans(s0, n0, s1, n1, s2);
    var had, has := s1.trunks[t].subs, s2.trunks[t].subs;
    assert made.Some? ==> has == had[v := made.value];
    forall v' | v' in has
      ensures if v' in s0.trunks[t].subs then has[v'] == s0.trunks[t].subs[v']
              else v' in want && has[v'] in s2.ports && SubportPort(s2.ports[has[v']], k, v', want[v'])
    {
      if v' in had && v' !in s0.trunks[t].subs {
        ListedKept(s0, n0, s1, n1, s2, t, k, want, v');
      }
    }
    SymDiffCard(had.Keys, want.Keys, v);
  }

  lemma ListedKept(s0: Store, n0: nat, s1: Store, n1: nat, s2: Store, t: nat, k: Key,
                   want: map<int, VlanInfo>, v: int)
    requires Progress(s0, n0, s1, t, k, want) && PortsKept(s1, n1, s2)
    requires v in s1.trunks[t].subs && v !in s0.trunks[t].subs
    requires s1.trunks[t].subs[v] in s2.ports && s1.trunks[t].subs[v] < n1
    ensures SubportPort(s2.ports[s1.trunks[t].subs[v]], k, v, want[v])
  {
  }

  lemma ProgressRemove(s0: Store, n0: nat, s1: Store, n1: nat, s2: Store, t: nat, k: Key,
                       want: map<int, VlanInfo>, v: int, gone: bool)
    requires Progress(s0, n0, s1, t, k, want) && n0 <= n1 && StoreValid(s1)
    requires v !in want && v in s1.trunks[t].subs
    requires s2.networks == s1.networks && PortsKept(s1, n1, s2)
    requires forall p | p in s1.ports && p != s1.trunks[t].subs[v] :: p in s2.ports
    requires forall p | p in s1.ports :: p < n1
    requires s2.trunks == if gone then Detach(s1, t, s1.trunks[t].subs[v]).trunks else s1.trunks
    requires !gone ==> s2.ports == s1.ports
    ensures Progress(s0, n0, s2, t, k, want) && t in s2.trunks
    ensures s2.trunks[t].subs.Keys == if gone then s1.trunks[t].subs.Keys - {v} else s1.trunks[t].subs.Keys
    ensures Distance(s2, t, want) == Distance(s1, t, want) - if gone then 1 else 0
  {
    if gone {
      DetachOne(s1, t, v);
      RemoveKeeps(s0, n0, s1, n1, s2, t, k, want, v);
      SymDiffCard(s1.trunks[t].subs.Keys, want.Keys, v);
    }
  }

  lemma RemoveKeeps(s0: Store, n0: nat, s1: Store, n1: nat, s2: Store, t: nat, k: Key,
                    want: map<int, VlanInfo>, v: int)
    requires Progress(s0, n0, s1, t, k, want) && n0 <= n1 && v in s1.trunks[t].subs
    requires SubportsNotShared(s1) && ListedPortsExist(s1)
    requires s2.networks == s1.networks && PortsKept(s1, n1, s2)
    requires forall p | p in s1.ports && p != s1.trunks[t].subs[v] :: p in s2.ports
    requires forall p | p in s1.ports :: p < n1
    requires s2.trunks == Detach(s1, t, s1.trunks[t].subs[v]).trunks
    ensures Progress(s0, n0, s2, t, k, want) && t in s2.trunks
  {
  }

  // ----- All found trunks ---------------------------------------------------

  function WantOf(req: VlanMap, k: Key): map<int, VlanInfo> {
    if k in req then req[k] else map[]
  }

  predicate FoundInjective(found: map<Key, nat>) {
    forall k, k' | k in found && k' in found :: found[k] == found[k'] ==> k == k'
  }

  lemma FoundIsInjective(db: Databases, s: Store, found: map<Key, nat>)
    requires FoundNamed(s, found) && DashFree(db) && found.Keys <= ValidPairs(db)
    ensures FoundInjective(found)
  {
    forall k, k' | k in found && k' in found && found[k] == found[k'] ensures k == k' {
      TrunkNameInjective(k.0, k.1, k'.0, k'.1);
    }
  }

  /** The walk over the found trunks has still `todo` to do; `clean` when nothing raised. */
  predicate Walked(s0: Store, n0: nat, s: Store, found: map<Key, nat>, req: VlanMap, todo: set<Key>, clean: bool) {
    && SubportsChange(s0, n0, s)
    && (forall k | k in found :: found[k] in s0.trunks && found[k] in s.trunks)
    && (forall k | k in found && k in todo :: s.trunks[found[k]] == s0.trunks[found[k]])
    && (forall k | k in found && k !in todo :: SubportsMoved(s0, s, found[k], k, WantOf(req, k)))
    && (clean ==> forall k | k in found && k !in todo ::
          s.trunks[found[k]].subs.Keys == Reached(s0.trunks[found[k]].subs.Keys, WantOf(req, k)))
    && (forall t | t in s0.trunks && t !in found.Values :: s.trunks[t] == s0.trunks[t])
  }

  lemma SubportsChangeRefl(s: Store, n: nat)
    ensures SubportsChange(s, n, s)
  {
  }

  lemma WantIs(req: VlanMap, k: Key, want: map<int, VlanInfo>)
    requires want == if k in req then req[k] else map[]
    ensures want == WantOf(req, k)
  {
  }

  lemma WalkedAt(s0: Store, n0: nat, s: Store, found: map<Key, nat>, req: VlanMap, todo: set<Key>, clean: bool, k: Key)
    requires Walked(s0, n0, s, found, req, todo, clean) && k in found
    ensures found[k] in s.trunks
  {
  }

  lemma WalkedWeaken(s0: Store, n0: nat, s: Store, found: map<Key, nat>, req: VlanMap, todo: set<Key>, clean: bool)
    ensures Walked(s0, n0, s, found, req, todo, clean) ==> Walked(s0, n0, s, found, req, todo, false)
  {
  }

  lemma WalkedEnd(s0: Store, n0: nat, s: Store, found: map<Key, nat>, req: VlanMap, k: Key)
    requires Walked(s0, n0, s, found, req, {}, true) && k in found
    ensures found[k] in s0.trunks && found[k] in s.trunks
    ensures s.trunks[found[k]].subs.Keys == Reached(s0.trunks[found[k]].subs.Keys, WantOf(req, k))
  {
  }

  lemma WalkedStart(s: Store, n: nat, found: map<Key, nat>, req: VlanMap)
    requires FoundNamed(s, found)
    ensures Walked(s, n, s, found, req, found.Keys, true)
  {
  }

  lemma MovedKept(s0: Store, s1: Store, n1: nat, s2: Store, t: nat, k: Key, want: map<int, VlanInfo>)
    requires t in s0.trunks && t in s1.trunks && t in s2.trunks && s2.trunks[t] == s1.trunks[t]
    requires SubportsMoved(s0, s1, t, k, want) && PortsKept(s1, n1, s2) && ListedPortsExist(s2)
    requires forall p | p in s1.ports :: p < n1
    ensures SubportsMoved(s0, s2, t, k, want)
  {
  }

  lemma WalkedStep(s0: Store, n0: nat, s1: Store, n1: nat, s2: Store, found: map<Key, nat>, req: VlanMap,
                   todo: set<Key>, k: Key, clean: bool, clean': bool)
    requires Walked(s0, n0, s1, found, req, todo, clean) && FoundInjective(found) && n0 <= n1
    requires k in todo && k in found && (clean' ==> clean)
    requires ListedPortsExist(s2) && forall p | p in s1.ports :: p < n1
    requires SubportsChange(s1, n1, s2) && SubportsMoved(s1, s2, found[k], k, WantOf(req, k))
    requires forall t | t in s1.trunks && t != found[k] :: s2.trunks[t] == s1.trunks[t]
    requires clean' ==> s2.trunks[found[k]].subs.Keys == Reached(s1.trunks[found[k]].subs.Keys, WantOf(req, k))
    ensures Walked(s0, n0, s2, found, req, todo - {k}, clean')
  {
    hide PortsKept, Reached, SubportsMoved, WantOf, ListedPortsExist;
    SubportsChangeTrans(s0, n0, s1, n1, s2);
    MovedRebase(s0, s1, s2, found[k], k, WantOf(req, k));
    forall k' | k' in found && k' !in todo - {k}
      ensures SubportsMoved(s0, s2, found[k'], k', WantOf(req, k'))
    {
      if k' != k {
        MovedKept(s0, s1, n1, s2, found[k'], k', WantOf(req, k'));
      }
    }
  }

  lemma SubportsChangeTrans(s0: Store, n0: nat, s1: Store, n1: nat, s2: Store)
    requires SubportsChange(s0, n0, s1) && SubportsChange(s1, n1, s2) && n0 <= n1
    ensures SubportsChange(s0, n0, s2)
  {
  }

  lemma MovedRebase(s0: Store, s1: Store, s2: Store, t: nat, k: Key, want: map<int, VlanInfo>)
    requires t in s0.trunks && t in s1.trunks && t in s2.trunks && s1.trunks[t] == s0.trunks[t]
    requires SubportsMoved(s1, s2, t, k, want)
    ensures SubportsMoved(s0, s2, t, k, want)
  {
  }

  // ----- Cleanup ------------------------------------------------------------

  /** An orphan with only the subports of `todo` left for sure. */
  predicate Shrunk(before: Trunk, now: Trunk, todo: set<int>) {
    && now.name == before.name && now.parent == before.parent
    && now.subs.Keys <= before.subs.Keys && todo <= now.subs.Keys
    && forall v | v in now.subs :: now.subs[v] == before.subs[v]
  }

  lemma DetachShrinks(s: Store, t: nat, v: int)
    requires StoreValid(s) && t in s.trunks && v in s.trunks[t].subs
    ensures Detach(s, t, s.trunks[t].subs[v]).trunks.Keys == s.trunks.Keys
    ensures forall t' | t' in s.trunks && t' != t :: Detach(s, t, s.trunks[t].subs[v]).trunks[t'] == s.trunks[t']
    ensures Detach(s, t, s.trunks[t].subs[v]).trunks[t] == s.trunks[t].(subs := s.trunks[t].subs - {v})
  {
    DetachOne(s, t, v);
  }

  lemma CleanedRefl(db: Databases, s: Store, n: nat)
    ensures Cleaned(db, s, n, s)
  {
  }

  /** One orphan dealt with, after some others. */
  lemma CleanedStep(db: Databases, s0: Store, n: nat, s1: Store, s2: Store, t: nat)
    requires Cleaned(db, s0, n, s1) && t in s0.trunks && Orphan(db, s0.trunks[t].name)
    requires s2.networks == s1.networks && PortsKept(s1, n, s2)
    requires forall p | p in s1.ports :: p < n
    requires forall t' | t' in s2.trunks :: t' in s1.trunks
    requires forall t' | t' in s1.trunks && t' != t :: t' in s2.trunks && s2.trunks[t'] == s1.trunks[t']
    requires t in s2.trunks ==> s2.trunks[t].name == s1.trunks[t].name && s2.trunks[t].parent == s1.trunks[t].parent
                                && s2.trunks[t].subs.Keys <= s1.trunks[t].subs.Keys
    ensures Cleaned(db, s0, n, s2)
  {
  }

  // ----- The whole pass -----------------------------------------------------

  /** The five stores of a pass: before, after the networks, after discovery, after
      the subports, after the trunk cleanup, after the network cleanup. */
  datatype Stages = Stages(s0: Store, s1: Store, s2: Store, n2: nat, s3: Store, n3: nat, s4: Store, s5: Store)

  predicate Staged(db: Databases, ks: set<Key>, g: Stages) {
    && g.s1.ports == g.s0.ports && g.s1.trunks == g.s0.trunks
    && Discovered(g.s1, g.s2, ks)
    && SubportsChange(g.s2, g.n2, g.s3)
    && Cleaned(db, g.s3, g.n3, g.s4)
    && g.s5.ports == g.s4.ports && g.s5.trunks == g.s4.trunks
    && (forall p | p in g.s2.ports :: p < g.n2) && g.n2 <= g.n3
    && StoreValid(g.s2) && StoreValid(g.s3) && StoreValid(g.s4)
  }

  ghost predicate PassBounded(db: Databases, segs: seq<Segment>, mine: set<string>, a: Store, b: Store) {
    && (forall t | t in a.trunks && t in b.trunks :: TrunkBounded(db, segs, mine, a.trunks[t], b.trunks[t]))
    && (forall t | t in a.trunks && t !in b.trunks :: Orphan(db, a.trunks[t].name))
    && (forall t | t in b.trunks && t !in a.trunks ::
          && Managed(db, mine, b.trunks[t].name)
          && b.trunks[t].subs.Keys <= RequiredVlans(db, segs, ParseTrunkName(b.trunks[t].name).value))
  }

  /** Only trunks of the agent's pairs had subports added or removed. */
  predicate OnlyMine(db: Databases, segs: seq<Segment>, mine: set<string>, s2: Store, s3: Store) {
    forall t | t in s2.trunks && t in s3.trunks ::
      if Managed(db, mine, s2.trunks[t].name)
      then Between(s2.trunks[t].subs.Keys, RequiredVlans(db, segs, ParseTrunkName(s2.trunks[t].name).value),
          s3.trunks[t].subs.Keys)
      else s3.trunks[t] == s2.trunks[t]
  }

  lemma WalkedOnlyMine(db: Databases, segs: seq<Segment>, mine: set<string>, s2: Store, n2: nat, s3: Store,
                       found: map<Key, nat>, req: VlanMap, clean: bool)
    requires DashFree(db) && found.Keys <= MyPairs(db, mine) && FoundNamed(s2, found)
    requires RequiredMap(db, segs, mine, req) && Walked(s2, n2, s3, found, req, {}, clean)
    ensures OnlyMine(db, segs, mine, s2, s3)
  {
    forall t | t in s2.trunks && t in s3.trunks
      ensures if Managed(db, mine, s2.trunks[t].name)
              then Between(s2.trunks[t].subs.Keys, RequiredVlans(db, segs, ParseTrunkName(s2.trunks[t].name).value),
                  s3.trunks[t].subs.Keys)
              else s3.trunks[t] == s2.trunks[t]
    {
      if t in found.Values {
        var k :| k in found && found[k] == t;
        TrunkNameRoundTrip(k.0, k.1);
        WantIsRequired(db, segs, mine, req, k);
      }
    }
  }

  lemma WantIsRequired(db: Databases, segs: seq<Segment>, mine: set<string>, req: VlanMap, k: Key)
    requires RequiredMap(db, segs, mine, req) && k.0 in mine
    ensures WantOf(req, k).Keys == RequiredVlans(db, segs, k)
  {
    forall v ensures v in WantOf(req, k) <==> v in RequiredVlans(db, segs, k) {
      assert Holds(req, k, v) <==> v in WantOf(req, k);
    }
  }

  lemma PassIsBounded(db: Databases, segs: seq<Segment>, mine: set<string>, g: Stages)
    requires DashFree(db) && Staged(db, MyPairs(db, mine), g) && OnlyMine(db, segs, mine, g.s2, g.s3)
    ensures PassBounded(db, segs, mine, g.s0, g.s5)
  {
    hide StoreValid, PortsKept, PortsEvolve;
    forall t | t in g.s5.trunks && t !in g.s0.trunks
      ensures Managed(db, mine, g.s5.trunks[t].name)
      ensures g.s5.trunks[t].subs.Keys <= RequiredVlans(db, segs, ParseTrunkName(g.s5.trunks[t].name).value)
    {
      var k :| k in MyPairs(db, mine) && g.s2.trunks[t].name == TrunkName(k.0, k.1);
      TrunkNameRoundTrip(k.0, k.1);
    }
    forall t | t in g.s0.trunks && t in g.s5.trunks
      ensures TrunkBounded(db, segs, mine, g.s0.trunks[t], g.s5.trunks[t])
    {
      assert g.s2.trunks[t] == g.s0.trunks[t];
      MyTrunksManaged(db, mine, g.s0.trunks[t].name);
    }
  }

  /** What the calls of a fault-free pass have established on the way. */
  ghost predicate CleanStages(db: Databases, segs: seq<Segment>, mine: set<string>, anchorNetwork: string,
                              links: Key -> seq<string>, found: map<Key, nat>, g: Stages) {
    && InfraOk(g.s1, db, mine, anchorNetwork)
    && found.Keys == MyPairs(db, mine) && FoundNamed(g.s2, found)
    && (forall k | k in found :: AnchorReady(g.s2, k, links(k)))
    && (forall k | k in found ::
        found[k] in g.s3.trunks && g.s3.trunks[found[k]].subs.Keys == RequiredVlans(db, segs, k))
    && (forall t | t in g.s2.trunks && t in g.s3.trunks && t !in found.Values :: g.s3.trunks[t] == g.s2.trunks[t])
    && (forall t | t in g.s4.trunks :: !Orphan(db, g.s4.trunks[t].name))
    && (forall n | n in g.s5.networks :: !OrphanNetwork(g.s5, db, n))
    && (forall n | n in g.s4.networks ::
          if OrphanNetwork(g.s4, db, n) then true else n in g.s5.networks && g.s5.networks[n] == g.s4.networks[n])
  }

  /** A trunk of the agent after the pass: there, with what is required. */
  lemma MyTrunkAfter(db: Databases, segs: seq<Segment>, mine: set<string>, anchorNetwork: string,
                     links: Key -> seq<string>, found: map<Key, nat>, g: Stages, k: Key)
    requires DashFree(db) && Staged(db, MyPairs(db, mine), g)
    requires CleanStages(db, segs, mine, anchorNetwork, links, found, g) && k in found
    ensures found[k] in g.s5.trunks && g.s5.trunks[found[k]].name == TrunkName(k.0, k.1)
    ensures g.s5.trunks[found[k]].subs.Keys == RequiredVlans(db, segs, k)
    ensures g.s5.trunks[found[k]].parent == g.s2.trunks[found[k]].parent
  {
    hide StoreValid, PortsKept, PortsEvolve, RequiredVlans, AnchorReady, InfraOk;
    CleanupSparesValidPairs(db, k);
  }

  lemma PassViewReached(db: Databases, segs: seq<Segment>, mine: set<string>, anchorNetwork: string,
                        links: Key -> seq<string>, found: map<Key, nat>, g: Stages)
    requires DashFree(db) && Staged(db, MyPairs(db, mine), g)
    requires CleanStages(db, segs, mine, anchorNetwork, links, found, g)
    ensures View(g.s5) == PassView(View(g.s0), db, segs, mine)
  {
    hide StoreValid, Staged, CleanStages, NamesUnique, PassView, DashFree, View;
    var after, spec := View(g.s5), PassView(View(g.s0), db, segs, mine);
    LastUnique(db, MyPairs(db, mine), g);
    forall n | n in after ensures n in spec && after[n] == spec[n] {
      var t := ViewName(g.s5, n);
      ViewAt(g.s5, t);
      TrunkAfter(db, segs, mine, anchorNetwork, links, found, g, t);
    }
    forall n | n in spec ensures n in after {
      NameAfter(db, segs, mine, anchorNetwork, links, found, g, n);
    }
    assert after.Keys == spec.Keys;
  }

  lemma LastUnique(db: Databases, ks: set<Key>, g: Stages)
    requires Staged(db, ks, g)
    ensures NamesUnique(g.s5)
  {
  }

  lemma ViewName(s: Store, n: string) returns (t: nat)
    requires n in View(s)
    ensures t in s.trunks && s.trunks[t].name == n
  {
    t :| t in s.trunks && s.trunks[t].name == n;
  }

  lemma NameAfter(db: Databases, segs: seq<Segment>, mine: set<string>, anchorNetwork: string,
                  links: Key -> seq<string>, found: map<Key, nat>, g: Stages, n: string)
    requires DashFree(db) && Staged(db, MyPairs(db, mine), g)
    requires CleanStages(db, segs, mine, anchorNetwork, links, found, g)
    requires n in PassView(View(g.s0), db, segs, mine)
    ensures n in View(g.s5)
  {
    hide StoreValid, PortsKept, PortsEvolve, RequiredVlans, AnchorReady, InfraOk, OrphanNetwork;
    MyTrunksManaged(db, mine, n);
    if n in View(g.s0) {
      var t :| t in g.s0.trunks && g.s0.trunks[t].name == n;
      assert g.s2.trunks[t].name == n && g.s3.trunks[t].name == n;
      assert t in g.s5.trunks && g.s5.trunks[t].name == n;
    } else {
      var k :| k in MyPairs(db, mine) && n == TrunkName(k.0, k.1);
      MyTrunkAfter(db, segs, mine, anchorNetwork, links, found, g, k);
    }
  }

  /** Trunks found, and trunks made on the way, are the agent's. */
  lemma FoundManaged(db: Databases, mine: set<string>, s0: Store, s2: Store, found: map<Key, nat>)
    requires DashFree(db) && found.Keys <= MyPairs(db, mine) && FoundNamed(s2, found)
    requires TrunksGrow(s0, s2, MyPairs(db, mine))
    ensures forall k | k in found :: Managed(db, mine, s2.trunks[found[k]].name)
    ensures forall t | t in s2.trunks && t !in s0.trunks :: Managed(db, mine, s2.trunks[t].name)
  {
    forall k | k in MyPairs(db, mine) ensures Managed(db, mine, TrunkName(k.0, k.1)) {
      TrunkNameRoundTrip(k.0, k.1);
    }
  }

  lemma TrunkAfter(db: Databases, segs: seq<Segment>, mine: set<string>, anchorNetwork: string,
                   links: Key -> seq<string>, found: map<Key, nat>, g: Stages, t: nat)
    requires DashFree(db) && Staged(db, MyPairs(db, mine), g) && t in g.s5.trunks
    requires CleanStages(db, segs, mine, anchorNetwork, links, found, g)
    ensures var n := g.s5.trunks[t].name; var spec := PassView(View(g.s0), db, segs, mine);
            n in spec && spec[n] == g.s5.trunks[t].subs.Keys
  {
    var n := g.s5.trunks[t].name;
    MyTrunksManaged(db, mine, n);
    assert NamesUnique(g.s2);
    assert g.s2.trunks[t].name == n && g.s4.trunks[t].name == n;
    if Managed(db, mine, n) {
      var k := ParseTrunkName(n).value;
      ParsedTrunkName(n);
      assert found[k] == t;
      MyTrunkAfter(db, segs, mine, anchorNetwork, links, found, g, k);
    } else {
      FoundManaged(db, mine, g.s0, g.s2, found);
      assert t !in found.Values && t in g.s0.trunks;
      assert NamesUnique(g.s0);
      ViewAt(g.s0, t);
    }
  }

  lemma PassConverges(db: Databases, segs: seq<Segment>, mine: set<string>, anchorNetwork: string,
                      links: Key -> seq<string>, found: map<Key, nat>, g: Stages)
    requires DashFree(db) && Staged(db, MyPairs(db, mine), g)
    requires CleanStages(db, segs, mine, anchorNetwork, links, found, g)
    requires !StartsWith(anchorNetwork, GROUP_PREFIX)
    ensures Converged(g.s5, db, segs, mine, anchorNetwork, links)
  {
    InfraKept(db, segs, mine, anchorNetwork, links, found, g);
    forall k | k in MyPairs(db, mine)
      ensures AnchorReady(g.s5, k, links(k)) && HasTrunk(g.s5, TrunkName(k.0, k.1))
    {
      MyTrunkAfter(db, segs, mine, anchorNetwork, links, found, g, k);
      AnchorKept(db, mine, g, found[k], k, links(k));
    }
    forall t | t in g.s5.trunks && Managed(db, mine, g.s5.trunks[t].name)
      ensures g.s5.trunks[t].subs.Keys == RequiredVlans(db, segs, ParseTrunkName(g.s5.trunks[t].name).value)
    {
      TrunkAfter(db, segs, mine, anchorNetwork, links, found, g, t);
    }
  }

  lemma InfraKept(db: Databases, segs: seq<Segment>, mine: set<string>, anchorNetwork: string,
                  links: Key -> seq<string>, found: map<Key, nat>, g: Stages)
    requires Staged(db, MyPairs(db, mine), g)
    requires CleanStages(db, segs, mine, anchorNetwork, links, found, g)
    requires !StartsWith(anchorNetwork, GROUP_PREFIX)
    ensures InfraOk(g.s5, db, mine, anchorNetwork)
  {
    hide StoreValid, PortsKept, PortsEvolve, RequiredVlans, AnchorReady, GroupNetworkName, TrunksGrow;
    assert g.s4.networks == g.s1.networks;
    var n :| n in g.s1.networks && g.s1.networks[n] == anchorNetwork;
    assert !OrphanNetwork(g.s4, db, n) && n in g.s5.networks;
    forall h | h in db.groups && GroupIsMine(h, mine) ensures HasNetwork(g.s5, GroupNetworkName(h.name)) {
      var n :| n in g.s1.networks && g.s1.networks[n] == GroupNetworkName(h.name);
      CleanupSparesGroups(g.s4, db, h, n);
      assert n in g.s5.networks && g.s5.networks[n] == GroupNetworkName(h.name);
    }
  }

  /** The anchor port of a trunk that survives the pass survives with it. */
  lemma AnchorKept(db: Databases, mine: set<string>, g: Stages, t: nat, k: Key, links: seq<string>)
    requires Staged(db, MyPairs(db, mine), g) && AnchorReady(g.s2, k, links)
    requires t in g.s2.trunks && t in g.s5.trunks && g.s2.trunks[t].name == TrunkName(k.0, k.1)
    requires g.s5.trunks[t].name == TrunkName(k.0, k.1) && g.s5.trunks[t].parent == g.s2.trunks[t].parent
    ensures AnchorReady(g.s5, k, links)
  {
    var name := AnchorPortName(k.0, k.1);
    var p := g.s2.trunks[t].parent;
    assert TrunkName(k.0, k.1)[|TRUNK_PREFIX|..] == k.0 + "-" + k.1;
    assert StartsWith(TrunkName(k.0, k.1), TRUNK_PREFIX) && StartsWith(name, ANCHOR_PREFIX);
    assert p in g.s2.ports && g.s2.ports[p].name == name;
    assert p in g.s4.ports && g.s4.ports[p].name == name;
    assert p < g.n2;
    assert p in g.s3.ports && g.s3.ports[p] == g.s2.ports[p] && g.s4.ports[p] == g.s3.ports[p];
    forall q | q in g.s5.ports && g.s5.ports[q].name == name ensures q == p {
    }
  }

  lemma StagedBounded(db: Databases, segs: seq<Segment>, mine: set<string>, g: Stages)
    requires g.s1.ports == g.s0.ports && g.s1.trunks == g.s0.trunks && Discovered(g.s1, g.s2, MyPairs(db, mine))
    requires SubportsChange(g.s2, g.n2, g.s3) && Cleaned(db, g.s3, g.n3, g.s4)
    requires g.s5.ports == g.s4.ports && g.s5.trunks == g.s4.trunks
    requires (forall p | p in g.s2.ports :: p < g.n2) && g.n2 <= g.n3
    requires StoreValid(g.s2) && StoreValid(g.s3) && StoreValid(g.s4)
    requires DashFree(db) ==> OnlyMine(db, segs, mine, g.s2, g.s3)
    ensures Staged(db, MyPairs(db, mine), g)
    ensures DashFree(db) ==> PassBounded(db, segs, mine, g.s0, g.s5)
  {
    if DashFree(db) { PassIsBounded(db, segs, mine, g); }
  }

  /** A pass given up before it touched subports. */
  lemma EarlyBounded(db: Databases, segs: seq<Segment>, mine: set<string>, s0: Store, s1: Store, s2: Store, n2: nat)
    requires s1.ports == s0.ports && s1.trunks == s0.trunks && Discovered(s1, s2, MyPairs(db, mine))
    requires StoreValid(s2) && forall p | p in s2.ports :: p < n2
    ensures DashFree(db) ==> PassBounded(db, segs, mine, s0, s2)
  {
    SubportsChangeRefl(s2, n2);
    CleanedRefl(db, s2, n2);
    StagedBounded(db, segs, mine, Stages(s0, s1, s2, n2, s2, n2, s2, s2));
  }

  // ----- The targeted pass ----------------------------------------------------

  /** At most VLAN `v` was added (or removed), whatever calls raised, and a subport
      that was added carries the given data. */
  predicate Nudged(a: Store, b: Store, physnet: string, v: int, add: bool, info: VlanInfo) {
    && (forall n | n in a.networks :: n in b.networks && b.networks[n] == a.networks[n])
    && (forall t | t in a.trunks ::
        t in b.trunks && b.trunks[t].name == a.trunks[t].name && b.trunks[t].parent == a.trunks[t].parent)
    && (forall t | t in b.trunks ::
        NudgedTrunk(if t in a.trunks then a.trunks[t].subs else map[], b.trunks[t].subs, v, add))
    && (forall t | t in b.trunks && v in b.trunks[t].subs && !(t in a.trunks && v in a.trunks[t].subs) ::
          b.trunks[t].subs[v] in b.ports && SubportData(b.ports[b.trunks[t].subs[v]], physnet, info))
  }

  predicate NudgedTrunk(had: map<int, nat>, has: map<int, nat>, v: int, add: bool) {
    && (if add then had.Keys <= has.Keys <= had.Keys + {v} else had.Keys - {v} <= has.Keys <= had.Keys)
    && forall w | w in had && w in has :: has[w] == had[w]
  }

  lemma NudgedRefl(s: Store, physnet: string, v: int, add: bool, info: VlanInfo)
    ensures Nudged(s, s, physnet, v, add, info)
  {
  }

  /** Ports other than anchors keep their data while they live. */
  predicate PortsSteady(a: Store, b: Store) {
    forall p | p in a.ports && p in b.ports && !StartsWith(a.ports[p].name, ANCHOR_PREFIX) :: b.ports[p] == a.ports[p]
  }

  lemma NudgedTrans(a: Store, b: Store, c: Store, physnet: string, v: int, add: bool, info: VlanInfo)
    requires Nudged(a, b, physnet, v, add, info) && Nudged(b, c, physnet, v, add, info)
    requires PortsSteady(b, c) && ListedPortsExist(c)
    ensures Nudged(a, c, physnet, v, add, info)
  {
    forall t | t in c.trunks
      ensures NudgedTrunk(if t in a.trunks then a.trunks[t].subs else map[], c.trunks[t].subs, v, add)
    {
      NudgedTrunkTrans(if t in a.trunks then a.trunks[t].subs else map[], if t in b.trunks then b.trunks[t].subs
          else map[],
                       c.trunks[t].subs, v, add);
    }
    hide NudgedTrunk;
    forall t | t in c.trunks && v in c.trunks[t].subs && !(t in a.trunks && v in a.trunks[t].subs)
      ensures c.trunks[t].subs[v] in c.ports && SubportData(c.ports[c.trunks[t].subs[v]], physnet, info)
    {
      if t in b.trunks && v in b.trunks[t].subs {
        SubportKept(b, c, t, physnet, v, add, info);
      }
    }
  }

  lemma NudgedTrunkTrans(a: map<int, nat>, b: map<int, nat>, c: map<int, nat>, v: int, add: bool)
    requires NudgedTrunk(a, b, v, add) && NudgedTrunk(b, c, v, add)
    ensures NudgedTrunk(a, c, v, add)
  {
  }

  lemma SubportKept(b: Store, c: Store, t: nat, physnet: string, v: int, add: bool, info: VlanInfo)
    requires Nudged(b, c, physnet, v, add, info) && PortsSteady(b, c) && ListedPortsExist(c)
    requires t in b.trunks && t in c.trunks && v in b.trunks[t].subs && v in c.trunks[t].subs
    requires b.trunks[t].subs[v] in b.ports && SubportData(b.ports[b.trunks[t].subs[v]], physnet, info)
    ensures c.trunks[t].subs[v] in c.ports && SubportData(c.ports[c.trunks[t].subs[v]], physnet, info)
  {
  }

  lemma NudgedGrow(a: Store, b: Store, k: Key, physnet: string, v: int, add: bool, info: VlanInfo)
    requires Discovered(a, b, {k})
    ensures Nudged(a, b, physnet, v, add, info)
  {
  }

  lemma ViewLacks(s: Store, n: string)
    requires forall t | t in s.trunks :: s.trunks[t].name != n
    ensures n !in View(s)
  {
  }

  /** The view after a trunk was found or made. */
  lemma ViewGrown(a: Store, b: Store, k: Key)
    requires Discovered(a, b, {k}) && NamesUnique(a) && NamesUnique(b) && HasTrunk(b, TrunkName(k.0, k.1))
    ensures View(b) == View(a) + if TrunkName(k.0, k.1) in View(a) then map[] else map[TrunkName(k.0, k.1) := {}]
  {
    hide View, TrunkName, PortsEvolve;
    var name := TrunkName(k.0, k.1);
    var va, vb := View(a), View(b);
    forall t | t in a.trunks
      ensures a.trunks[t].name in va && a.trunks[t].name in vb
      ensures va[a.trunks[t].name] == a.trunks[t].subs.Keys == vb[a.trunks[t].name]
    {
      ViewAt(a, t);
      ViewAt(b, t);
    }
    forall t | t in b.trunks && t !in a.trunks
      ensures b.trunks[t].name == name && name !in va && name in vb && vb[name] == {}
    {
      ViewAt(b, t);
      ViewLacks(a, name);
    }
    forall n | n in vb ensures n in va || n == name {
      var t := ViewName(b, n);
    }
    forall n | n in va ensures n in vb && vb[n] == va[n] {
      var t := ViewName(a, n);
    }
    var t :| t in b.trunks && b.trunks[t].name == name;
    assert name in vb;
  }

  /** The view after one trunk's VLANs changed. */
  lemma ViewChanged(a: Store, b: Store, t: nat)
    requires NamesUnique(a) && NamesUnique(b) && SameTrunks(a, b) && t in a.trunks
    requires forall t' | t' in a.trunks && t' != t :: b.trunks[t'] == a.trunks[t']
    ensures a.trunks[t].name in View(a)
    ensures View(b) == View(a)[a.trunks[t].name := b.trunks[t].subs.Keys]
  {
    hide View, ListedPortsExist;
    forall t' | t' in a.trunks
      ensures a.trunks[t'].name in View(a) && b.trunks[t'].name in View(b)
      ensures View(a)[a.trunks[t'].name] == a.trunks[t'].subs.Keys
                && View(b)[b.trunks[t'].name] == b.trunks[t'].subs.Keys
    {
      ViewAt(a, t');
      ViewAt(b, t');
    }
    forall n | n in View(a) ensures n in View(b) && (n != a.trunks[t].name ==> View(b)[n] == View(a)[n]) {
      var t' := ViewName(a, n);
    }
    forall n | n in View(b) ensures n in View(a) {
      var t' := ViewName(b, n);
    }
  }

  /** Anchor ports of `b` were there before or carry a name in `names`. */
  predicate AnchorsFrom(a: Store, b: Store, names: set<string>) {
    forall p | p in b.ports && StartsWith(b.ports[p].name, ANCHOR_PREFIX) ::
      HasPort(a, b.ports[p].name) || b.ports[p].name in names
  }

  /** One trunk gained or lost at most VLAN `v`. */
  predicate SubportNudged(a: Store, b: Store, t: nat, physnet: string, v: int, add: bool, info: VlanInfo) {
    && t in a.trunks && b.networks == a.networks && SameTrunks(a, b)
    && (forall t' | t' in a.trunks && t' != t :: b.trunks[t'] == a.trunks[t'])
    && NudgedTrunk(a.trunks[t].subs, b.trunks[t].subs, v, add)
    && (v in b.trunks[t].subs && v !in a.trunks[t].subs ==>
          b.trunks[t].subs[v] in b.ports && SubportData(b.ports[b.trunks[t].subs[v]], physnet, info))
  }

  lemma SubportNudgedIs(a: Store, b: Store, t: nat, physnet: string, v: int, add: bool, info: VlanInfo)
    requires SubportNudged(a, b, t, physnet, v, add, info)
    ensures Nudged(a, b, physnet, v, add, info)
  {
  }

  /** The maps of two agents do not overlap, and together they are the map of one agent
      that looks after the chassis of both. */
  lemma ShardMaps(db: Databases, segs: seq<Segment>, a: set<string>, b: set<string>, ra: VlanMap, rb: VlanMap,
      all: VlanMap)
    requires RequiredMap(db, segs, a, ra) && RequiredMap(db, segs, b, rb) && RequiredMap(db, segs, a + b, all)
    ensures a !! b ==> forall k, v :: !(Holds(ra, k, v) && Holds(rb, k, v))
    ensures forall k, v :: Holds(all, k, v) <==> Holds(ra, k, v) || Holds(rb, k, v)
  {
  }
}
