/** The L2VNI trunk manager: the full pass and the targeted pass, step by step
    over a Neutron client whose calls may raise. */
module TrunkManager {
  import opened Wrappers
  import opened Names
  import opened Ovn
  import opened Neutron
  import opened TrunkSpec
  import opened TrunkSteps
  import opened Targeted

  /** Every found trunk already carries what is wanted. */
  ghost predicate AllMet(s: Store, found: map<Key, nat>, req: VlanMap) {
    forall k | k in found :: found[k] in s.trunks && s.trunks[found[k]].subs.Keys == WantOf(req, k).Keys
  }

  predicate NoOrphans(db: Databases, s: Store) {
    forall t | t in s.trunks :: !Orphan(db, s.trunks[t].name)
  }

  /** Neutron gives every segment an id. */
  predicate SegmentIds(segs: seq<Segment>) {
    forall s | s in segs :: s.id != ""
  }

  /** Trunks that went took their anchor ports and subports with them. */
  predicate AnchorsGone(a: Store, b: Store) {
    forall t | t in a.trunks && t !in b.trunks ::
      a.trunks[t].parent !in b.ports && forall v | v in a.trunks[t].subs :: a.trunks[t].subs[v] !in b.ports
  }

  predicate NoOrphanNetworks(db: Databases, s: Store) {
    forall n | n in s.networks :: !OrphanNetwork(s, db, n)
  }

  /** Only networks nobody needs were deleted. */
  predicate NetworksCleaned(db: Databases, a: Store, b: Store) {
    && (forall n | n in b.networks :: n in a.networks && b.networks[n] == a.networks[n])
    && (forall n | n in a.networks && n !in b.networks :: OrphanNetwork(a, db, n))
  }

  class Manager {
    const client: Client
    const ring: Option<string -> set<string>>
    const agentId: string
    const autoCreate: bool
    const anchorNetwork: string
    const linkInfo: Key -> seq<string>
    var db: Option<Databases>
    var cache: Option<map<string, Chassis>>

    constructor (client: Client, db: Option<Databases>, ring: Option<string -> set<string>>, agentId: string,
                 autoCreate: bool, anchorNetwork: string, linkInfo: Key -> seq<string>)
      ensures this.client == client && this.db == db && this.ring == ring && this.agentId == agentId
      ensures this.autoCreate == autoCreate && this.anchorNetwork == anchorNetwork && this.linkInfo == linkInfo
      ensures cache.None?
    {
      this.client, this.db, this.ring, this.agentId := client, db, ring, agentId;
      this.autoCreate, this.anchorNetwork, this.linkInfo := autoCreate, anchorNetwork, linkInfo;
      cache := None;
    }

    /** Without a ring or an agent id the agent looks after every chassis. */
    predicate ShouldManage(systemId: string) {
      ring.None? || agentId == "" || agentId in ring.value(systemId)
    }

    function Mine(db: Databases): set<string> {
      set c | c in db.chassis && ShouldManage(c.name) :: c.name
    }

    /** The cache is either unset or holds exactly the agent's chassis. */
    ghost predicate CacheOk(db: Databases)
      reads this`cache
    {
      cache.Some? ==> cache.value.Keys == Mine(db) && forall n | n in cache.value :: cache.value[n].name == n
    }

    // --- Lookups ----------------------------------------------------------

    method BuildChassisCache(db: Databases) returns (m: map<string, Chassis>)
      ensures m.Keys == Mine(db) && forall n | n in m :: m[n].name == n
    {
      m := map[];
      for i := 0 to |db.chassis|
        invariant m.Keys == set c | c in db.chassis[..i] && ShouldManage(c.name) :: c.name
        invariant forall n | n in m :: m[n].name == n
      {
        assert db.chassis[..i + 1] == db.chassis[..i] + [db.chassis[i]];
        if ShouldManage(db.chassis[i].name) {
          m := m[db.chassis[i].name := db.chassis[i]];
        }
      }
      assert db.chassis[..|db.chassis|] == db.chassis;
    }

    /** With the cache or without it, the answers agree on the agent's chassis. */
    method GetChassisByName(db: Databases, name: string) returns (r: Option<Chassis>)
      requires CacheOk(db)
      ensures r.Some? ==> r.value.name == name && Known(db, name)
      ensures name in Mine(db) ==> r.Some?
      ensures cache.Some? && name !in Mine(db) ==> r.None?
      ensures cache.None? && Known(db, name) ==> r.Some?
    {
      if cache.Some? {
        return if name in cache.value then Some(cache.value[name]) else None;
      }
      for i := 0 to |db.chassis|
        invariant forall j | 0 <= j < i :: db.chassis[j].name != name
      {
        if db.chassis[i].name == name {
          return Some(db.chassis[i]);
        }
      }
      r := None;
    }

    method GroupHasManagedChassis(db: Databases, g: HaGroup) returns (r: bool)
      requires CacheOk(db)
      ensures r <==> GroupIsMine(g, Mine(db))
    {
      for i := 0 to |g.members|
        invariant forall j | 0 <= j < i :: g.members[j] !in Mine(db)
      {
        var c := GetChassisByName(db, g.members[i]);
        if c.Some? {
          if ShouldManage(c.value.name) {
            assert g.members[i] in g.members && g.members[i] in Mine(db);
            return true;
          }
        }
      }
      r := false;
    }

    /** The set of pairs that should have a trunk. */
    method GetChassisPhysnets(db: Databases) returns (r: set<Key>)
      ensures r == ValidPairs(db)
    {
      var names: set<string> := {};
      for i := 0 to |db.groups|
        invariant names == set g, m | g in db.groups[..i] && m in g.members :: m
      {
        var g := db.groups[i];
        ghost var before := names;
        for j := 0 to |g.members|
          invariant names == before + set m | m in g.members[..j]
        {
          assert g.members[..j + 1] == g.members[..j] + [g.members[j]];
          names := names + {g.members[j]};
        }
        assert g.members[..|g.members|] == g.members;
        assert db.groups[..i + 1] == db.groups[..i] + [g];
      }
      assert db.groups[..|db.groups|] == db.groups;
      assert names == GroupMembers(db);
      r := {};
      for i := 0 to |db.chassis|
        invariant r == set c, p | c in db.chassis[..i] && p in c.physnets && c.name in names :: (c.name, p)
      {
        var c := db.chassis[i];
        assert db.chassis[..i + 1] == db.chassis[..i] + [c];
        if c.name in names {
          ghost var before := r;
          for j := 0 to |c.physnets|
            invariant r == before + set p | p in c.physnets[..j] :: (c.name, p)
          {
            assert c.physnets[..j + 1] == c.physnets[..j] + [c.physnets[j]];
            r := r + {(c.name, c.physnets[j])};
          }
          assert c.physnets[..|c.physnets|] == c.physnets;
        }
      }
      assert db.chassis[..|db.chassis|] == db.chassis;
    }

    // --- Infrastructure networks -------------------------------------------

    method EnsureNetwork(name: string) returns (raised: bool)
      requires client.Valid()
      modifies client`failures, client`writes, client`networks, client`nextId
      ensures client.Valid() && client.nextId >= old(client.nextId)
      ensures client.failures == old(client.failures) + if raised then 1 else 0
      ensures NetworksGrow(old(client.St()), client.St(), {name})
      ensures !raised ==> HasNetwork(client.St(), name)
      ensures old(HasNetwork(client.St(), name)) ==>
                client.writes == old(client.writes) && client.networks == old(client.networks)
    {
      var id: Option<nat>;
      raised, id := client.FindNetwork(name);
      if raised || id.Some? { return; }
      var n: nat;
      raised, n := client.CreateNetwork(name);
      if !raised {
        assert n in client.networks;
      }
    }

    method EnsureInfrastructure(db: Databases) returns (raised: bool)
      requires client.Valid() && CacheOk(db)
      modifies client`failures, client`writes, client`networks, client`nextId
      ensures client.Valid() && client.nextId >= old(client.nextId)
      ensures client.failures == old(client.failures) + if raised then 1 else 0
      ensures NetworksGrow(old(client.St()), client.St(), InfraNames(db, Mine(db), anchorNetwork))
      ensures !raised && autoCreate ==> InfraOk(client.St(), db, Mine(db), anchorNetwork)
      ensures old(InfraOk(client.St(), db, Mine(db), anchorNetwork)) || !autoCreate ==>
                client.writes == old(client.writes) && client.networks == old(client.networks)
      ensures LeaksPaid(old(client.St()), old(client.failures), client.St(), client.failures)
    {
      hide Leaks, StoreValid, NetworksGrow, InfraNames, HasNetwork, Client.Fresh;
      ghost var s0 := client.St();
      ghost var names := InfraNames(db, Mine(db), anchorNetwork);
      LeaksSame(s0, s0);
      GrowRefl(s0, names);
      raised := false;
      if !autoCreate { return; }
      raised := EnsureNetwork(anchorNetwork);
      LeaksSame(s0, client.St());
      IsInfraName(db, Mine(db), anchorNetwork);
      GrowStep(s0, s0, client.St(), names, anchorNetwork);
      if raised { return; }
      for i := 0 to |db.groups|
        invariant client.Valid() && client.nextId >= old(client.nextId)
        invariant client.failures == old(client.failures)
        invariant NetworksGrow(old(client.St()), client.St(), InfraNames(db, Mine(db), anchorNetwork))
        invariant LeaksPaid(old(client.St()), old(client.failures), client.St(), client.failures)
        invariant HasNetwork(client.St(), anchorNetwork)
        invariant forall j | 0 <= j < i && GroupIsMine(db.groups[j], Mine(db)) ::
                    HasNetwork(client.St(), GroupNetworkName(db.groups[j].name))
        invariant old(InfraOk(client.St(), db, Mine(db), anchorNetwork)) ==>
                    client.writes == old(client.writes) && client.networks == old(client.networks)
      {
        var g := db.groups[i];
        assert g in db.groups;
        var isMine := GroupHasManagedChassis(db, g);
        if isMine {
          ghost var before := client.St();
          raised := EnsureNetwork(GroupNetworkName(g.name));
          LeaksSame(s0, client.St());
          IsInfraName(db, Mine(db), anchorNetwork);
          GrowStep(s0, before, client.St(), names, GroupNetworkName(g.name));
          if raised { return; }
        }
      }
    }

    /** The first group network found for the chassis, in group order. */
    method FindGroupNetwork(db: Databases, systemId: string) returns (raised: bool, id: Option<nat>)
      requires CacheOk(db) && systemId in Mine(db)
      modifies client`failures
      ensures client.failures == old(client.failures) + if raised then 1 else 0
      ensures !raised && id.Some? ==> FirstGroupNetwork(client.St(), db, systemId, id.value)
      ensures !raised ==> (id.Some? <==> GroupNetworkFor(client.St(), db, systemId))
    {
      raised, id := false, None;
      for i := 0 to |db.groups|
        invariant !raised && id.None? && client.failures == old(client.failures)
        invariant forall g | g in db.groups[..i] && systemId in g.members ::
                    !HasNetwork(client.St(), GroupNetworkName(g.name))
        invariant forall j | 0 <= j < i && systemId in db.groups[j].members ::
                    !HasNetwork(client.St(), GroupNetworkName(db.groups[j].name))
      {
        var g := db.groups[i];
        for j := 0 to |g.members|
          invariant !raised && id.None? && client.failures == old(client.failures)
          invariant systemId in g.members[..j] ==> !HasNetwork(client.St(), GroupNetworkName(g.name))
        {
          assert g.members[..j + 1] == g.members[..j] + [g.members[j]];
          var c := GetChassisByName(db, g.members[j]);
          if c.Some? {
            if c.value.name == systemId {
              raised, id := client.FindNetwork(GroupNetworkName(g.name));
              if raised || id.Some? {
                assert g in db.groups;
                assert !raised ==> FirstGroupAt(client.St(), db, systemId, i);
                return;
              }
            }
          }
        }
        assert g.members[..|g.members|] == g.members;
        assert db.groups[..i + 1] == db.groups[..i] + [g];
      }
      assert db.groups[..|db.groups|] == db.groups;
    }

    // --- Anchor ports and trunks --------------------------------------------

    method FindOrCreateAnchorPort(db: Databases, k: Key) returns (raised: bool, id: Option<nat>)
      requires client.Valid() && CacheOk(db) && k.0 in Mine(db)
      modifies client`failures, client`writes, client`ports, client`nextId
      ensures client.Valid() && client.nextId >= old(client.nextId) && client.failures >= old(client.failures)
      ensures PortsEvolve(old(client.St()), client.St())
      ensures raised ==> client.failures > old(client.failures)
      ensures !raised && id.Some? ==>
                id.value in client.ports && client.ports[id.value].name == AnchorPortName(k.0, k.1)
      ensures client.failures == old(client.failures) ==>
                && (id.Some? <==> Available(old(client.St()), db, k))
                && (id.Some? ==> AnchorReady(client.St(), k, linkInfo(k)))
      ensures old(AnchorReady(client.St(), k, linkInfo(k))) ==>
                client.writes == old(client.writes) && client.ports == old(client.ports)
      ensures AnchorsFrom(old(client.St()), client.St(), {AnchorPortName(k.0, k.1)})
      ensures AnchorsPlaced(db, old(client.St()), client.St(), {k})
      ensures forall p | p in client.ports && p !in old(client.ports) ::
                client.ports[p].profile == Profile(k.0, k.1, "", None, linkInfo(k))
      ensures !Available(old(client.St()), db, k) ==> client.ports == old(client.ports)
      ensures LeaksPaid(old(client.St()), old(client.failures), client.St(), client.failures)
    {
      hide Leaks, ListedPortsExist, SubportsNotShared, ParentsOwn, AnchorsNamed, InUse, FirstGroupNetwork;
      var name := AnchorPortName(k.0, k.1);
      assert StartsWith(name, ANCHOR_PREFIX);
      ghost var s0 := client.St();
      LeaksSame(s0, s0);
      raised, id := client.FindPort(name);
      if raised { return; }
      if id.Some? {
        if client.ports[id.value].profile.links == [] && linkInfo(k) != [] {
          raised := client.UpdatePortLinks(id.value, linkInfo(k));
          LeaksSame(s0, client.St());
        }
        return;
      }
      var net: Option<nat>;
      raised, net := FindGroupNetwork(db, k.0);
      if raised || net.None? { return; }
      var port := Port(name, net.value, AnchorOwner, Profile(k.0, k.1, "", None, linkInfo(k)));
      var failed, pid := client.CreatePort(port);
      LeaksSame(s0, client.St());
      id := if failed then None else Some(pid);
    }

    method FindOrCreateTrunk(db: Databases, k: Key) returns (raised: bool, id: Option<nat>)
      requires client.Valid() && CacheOk(db) && k.0 in Mine(db)
      modifies client`failures, client`writes, client`ports, client`trunks, client`nextId
      ensures client.Valid() && client.nextId >= old(client.nextId) && client.failures >= old(client.failures)
      ensures Discovered(old(client.St()), client.St(), {k})
      ensures raised ==> client.failures > old(client.failures)
      ensures !raised && id.Some? ==>
                id.value in client.trunks && client.trunks[id.value].name == TrunkName(k.0, k.1)
      ensures client.failures == old(client.failures) ==>
                && (id.Some? <==> Available(old(client.St()), db, k))
                && (id.Some? ==> AnchorReady(client.St(), k, linkInfo(k)))
                && (id.None? ==> client.trunks == old(client.trunks))
      ensures old(AnchorReady(client.St(), k, linkInfo(k)) && HasTrunk(client.St(), TrunkName(k.0, k.1))) ==>
                client.writes == old(client.writes) && client.St() == old(client.St())
      ensures AnchorsFrom(old(client.St()), client.St(), {AnchorPortName(k.0, k.1)})
      ensures AnchorsPlaced(db, old(client.St()), client.St(), {k})
      ensures !Available(old(client.St()), db, k) ==> client.ports == old(client.ports)
      ensures LeaksPaid(old(client.St()), old(client.failures), client.St(), client.failures)
    {
      hide Leaks, StoreValid, AnchorReady, Available, PortsEvolve, TrunksGrow, Discovered, AnchorPlaced;
      ghost var s0 := client.St();
      var anchor: Option<nat>;
      raised, anchor := FindOrCreateAnchorPort(db, k);
      id := None;
      ghost var s1 := client.St();
      TrunkMade(s0, s1, s1, k, None, 0);
      if raised || anchor.None? { return; }
      var name := TrunkName(k.0, k.1);
      assert StartsWith(name, TRUNK_PREFIX) && name[|TRUNK_PREFIX|..] == k.0 + "-" + k.1;
      raised, id := client.FindTrunk(name);
      if raised || id.Some? { return; }
      var failed, tid := client.CreateTrunk(name, anchor.value);
      LeaksSame(s1, client.St());
      id := if failed then None else Some(tid);
      TrunkMade(s0, s1, client.St(), k, id, anchor.value);
    }

    /** Every pair of `ks` has its trunk and an anchor port that needs no write. */
    ghost predicate AllReady(s: Store, ks: set<Key>) {
      forall k | k in ks :: AnchorReady(s, k, linkInfo(k)) && HasTrunk(s, TrunkName(k.0, k.1))
    }

    /** Of the pairs looked at, those that could have a trunk have one. */
    ghost predicate FoundAll(db: Databases, s0: Store, s: Store, looked: set<Key>, found: map<Key, nat>) {
      forall k | k in looked && Available(s0, db, k) :: k in found && AnchorReady(s, k, linkInfo(k))
    }

    lemma FoundAllStep(db: Databases, s0: Store, s1: Store, s2: Store, ks: set<Key>,
                       looked: set<Key>, found: map<Key, nat>, k: Key, found': map<Key, nat>)
      requires Discovered(s0, s1, ks) && Discovered(s1, s2, {k}) && StoreValid(s1) && StoreValid(s2)
      requires FoundAll(db, s0, s1, looked, found)
      requires found.Keys <= found'.Keys
      requires Available(s1, db, k) ==> k in found' && AnchorReady(s2, k, linkInfo(k))
      ensures FoundAll(db, s0, s2, looked + {k}, found')
    {
    }

    method DiscoverTrunks(db: Databases) returns (raised: bool, found: map<Key, nat>)
      requires client.Valid() && CacheOk(db)
      modifies client`failures, client`writes, client`ports, client`trunks, client`nextId
      ensures client.Valid() && client.nextId >= old(client.nextId) && client.failures >= old(client.failures)
      ensures Discovered(old(client.St()), client.St(), MyPairs(db, Mine(db)))
      ensures raised ==> client.failures > old(client.failures)
      ensures found.Keys <= MyPairs(db, Mine(db)) && FoundNamed(client.St(), found)
      ensures client.failures == old(client.failures) ==>
                FoundAll(db, old(client.St()), client.St(), MyPairs(db, Mine(db)), found)
      ensures AnchorsPlaced(db, old(client.St()), client.St(), MyPairs(db, Mine(db)))
      ensures AllReady(old(client.St()), MyPairs(db, Mine(db))) ==>
                client.writes == old(client.writes) && client.St() == old(client.St())
      ensures LeaksPaid(old(client.St()), old(client.failures), client.St(), client.failures)
    {
      hide Leaks, StoreValid, Discovered, AnchorsPlaced, FoundNamed, FoundAll, AllReady, Client.Fresh, AnchorReady,
           Available, HasTrunk, ValidPairs, AnchorsFrom, Mine;
      raised, found := false, map[];
      ghost var s0 := client.St();
      var todo := GetChassisPhysnets(db);
      ghost var ks := MyPairs(db, Mine(db));
      ghost var looked: set<Key> := {};
      DiscoverStart(db, s0, ks);
      while todo != {}
        invariant LeaksPaid(old(client.St()), old(client.failures), client.St(), client.failures)
        invariant !raised && ks <= looked + todo && todo <= ValidPairs(db)
        invariant client.Valid() && client.nextId >= old(client.nextId) && client.failures >= old(client.failures)
        invariant Discovered(s0, client.St(), ks) && AnchorsPlaced(db, s0, client.St(), ks)
        invariant found.Keys <= ks && FoundNamed(client.St(), found)
        invariant client.failures == old(client.failures) ==> FoundAll(db, s0, client.St(), looked, found)
        invariant AllReady(s0, ks) ==> client.writes == old(client.writes) && client.St() == s0
        decreases todo
      {
        var k := Pick(todo);
        todo := todo - {k};
        PairIsMine(db, k);
        if ShouldManage(k.0) {
          ghost var s1, found1 := client.St(), found;
          ClientValid(client);
          AllReadyAt(s0, ks, k);
          var id: Option<nat>;
          raised, id := FindOrCreateTrunk(db, k);
          ClientValid(client);
          DiscoveredMono(s1, client.St(), k, ks);
          DiscoveredTrans(s0, s1, client.St(), ks);
          PlacedStep(db, s0, s1, client.St(), ks, k);
          FoundNamedStep(s1, client.St(), ks, found, k, id);
          if raised { return; }
          if id.Some? { found := found[k := id.value]; }
          if client.failures == old(client.failures) {
            FoundAllStep(db, s0, s1, client.St(), ks, looked, found1, k, found);
          }
          looked := looked + {k};
        }
      }
      FoundAllMono(db, s0, client.St(), ks, looked, found);
    }

    lemma DiscoverStart(db: Databases, s: Store, ks: set<Key>)
      ensures Discovered(s, s, ks) && FoundNamed(s, map[]) && FoundAll(db, s, s, {}, map[])
      ensures AnchorsPlaced(db, s, s, ks)
    {
    }

    lemma PlacedStep(db: Databases, s0: Store, s1: Store, s2: Store, ks: set<Key>, k: Key)
      requires AnchorsPlaced(db, s0, s1, ks) && AnchorsPlaced(db, s1, s2, {k}) && Discovered(s0, s1, ks) && k in ks
      ensures AnchorsPlaced(db, s0, s2, ks)
    {
      AnchorsPlacedTrans(db, s0, s1, s2, ks, k);
    }

    lemma AllReadyAt(s: Store, ks: set<Key>, k: Key)
      requires k in ks
      ensures AllReady(s, ks) ==> AnchorReady(s, k, linkInfo(k)) && HasTrunk(s, TrunkName(k.0, k.1))
    {
    }

    lemma FoundAllMono(db: Databases, s0: Store, s: Store, ks: set<Key>, looked: set<Key>, found: map<Key, nat>)
      requires ks <= looked
      ensures FoundAll(db, s0, s, looked, found) ==> FoundAll(db, s0, s, ks, found)
    {
    }

    lemma PairIsMine(db: Databases, k: Key)
      requires k in ValidPairs(db)
      ensures k in MyPairs(db, Mine(db)) <==> ShouldManage(k.0)
      ensures ShouldManage(k.0) ==> k.0 in Mine(db)
    {
    }

    // --- Required VLANs -----------------------------------------------------

    /** Groups the listed segments by network; a listing that raised leaves the
        groups of what was read so far. */
    method GetNetworksWithSegments()
      returns (vlans: map<string, seq<Segment>>, vnis: map<string, seq<Segment>>, ghost segs: seq<Segment>)
      modifies client`failures, client`listFailures
      ensures client.failures >= old(client.failures) && segs <= client.segments
      ensures client.listFailures == old(client.listFailures) || client.failures == old(client.failures) ==>
                segs == client.segments
      ensures Grouped(segs, vlans, VlanSegment) && Grouped(segs, vnis, OverlaySegment) && vlans.Keys == vnis.Keys
    {
      var raised, listed := client.ListSegments();
      segs := listed;
      vlans, vnis := map[], map[];
      for i := 0 to |listed|
        modifies {}
        invariant Grouped(listed[..i], vlans, VlanSegment) && Grouped(listed[..i], vnis, OverlaySegment)
        invariant vlans.Keys == vnis.Keys
      {
        var s := listed[i];
        assert listed[..i + 1] == listed[..i] + [s];
        vlans := AddToGroup(listed[..i], vlans, s, VlanSegment);
        vnis := AddToGroup(listed[..i], vnis, s, OverlaySegment);
      }
      assert listed[..|listed|] == listed;
    }

    /** The chassis a router port brings in. */
    method GetChassisForLrp(db: Databases, lrp: Lrp) returns (r: set<string>)
      requires CacheOk(db)
      ensures forall c | c in Mine(db) :: c in r <==> c in LrpMembers(lrp)
      ensures forall c | c in r :: c in LrpMembers(lrp) && Known(db, c)
    {
      r := {};
      var members := LrpMembers(lrp);
      for i := 0 to |members|
        invariant forall c | c in Mine(db) :: c in r <==> c in members[..i]
        invariant forall c | c in r :: c in members && Known(db, c)
      {
        assert members[..i + 1] == members[..i] + [members[i]];
        var c := GetChassisByName(db, members[i]);
        if c.Some? { r := r + {c.value.name}; }
      }
      assert members[..|members|] == members;
    }

    method FindChassisForNetwork(db: Databases, networkId: string, physnet: string) returns (r: set<string>)
      requires CacheOk(db)
      ensures forall c | c in Mine(db) :: c in r <==> c in WantedBy(db, networkId, physnet)
      ensures r <= WantedBy(db, networkId, physnet)
    {
      r := if HasLocalnetPort(db, networkId, physnet) then ChassisWithPhysnet(db, physnet) else {};
      ghost var direct := r;
      var todo := RouterPortNames(db, networkId);
      ghost var done: set<string> := {};
      while todo != {}
        invariant todo + done == RouterPortNames(db, networkId)
        invariant direct <= r <= direct + RouterChassis(db, networkId)
        invariant forall c | c in Mine(db) ::
                    c in r <==> c in direct || exists l :: l in done && l in db.lrps && c in LrpMembers(db.lrps[l])
        decreases todo
      {
        var l :| l in todo;
        todo, done := todo - {l}, done + {l};
        if l in db.lrps {
          var more := GetChassisForLrp(db, db.lrps[l]);
          r := r + more;
        }
      }
      forall c | c in Mine(db) ensures c in r <==> c in WantedBy(db, networkId, physnet) {
        assert Known(db, c);
      }
    }

    /** Computes the required VLANs of the agent's chassis from what was listed. */
    method CalculateRequiredVlans(db: Databases) returns (req: VlanMap, ghost segs: seq<Segment>)
      requires CacheOk(db)
      modifies client`failures, client`listFailures
      ensures client.failures >= old(client.failures) && segs <= client.segments
      ensures client.listFailures == old(client.listFailures) || client.failures == old(client.failures) ==>
                segs == client.segments
      ensures RequiredMap(db, segs, Mine(db), req)
    {
      hide PartialMap, RequiredMap, FirstVni, SegmentsOf, WantedBy;
      var vlans: map<string, seq<Segment>>, vnis: map<string, seq<Segment>>;
      vlans, vnis, segs := GetNetworksWithSegments();
      req := map[];
      var todo := vlans.Keys;
      ghost var done: set<Segment> := {};
      NothingYet(db, segs, Mine(db));
      while todo != {}
        modifies {}
        invariant todo <= vlans.Keys
        invariant forall s | s in segs && s.kind == VlanSegment :: s in done <==> s.networkId !in todo
        invariant forall s | s in done :: s in segs
        invariant PartialMap(db, segs, Mine(db), done, req)
        decreases todo
      {
        var n :| n in todo;
        todo := todo - {n};
        GroupFirst(segs, n);
        var vni := if vnis[n] == [] then None else Some(vnis[n][0].segmentationId);
        assert vni == FirstVni(segs, n);
        ghost var done0 := done;
        for i := 0 to |vlans[n]|
          modifies {}
          invariant done == done0 + set s | s in vlans[n][..i]
          invariant forall s | s in done :: s in segs
          invariant PartialMap(db, segs, Mine(db), done, req)
        {
          var s := vlans[n][i];
          GroupMember(segs, n, VlanSegment, s);
          assert s in vlans[n];
          var chassis := FindChassisForNetwork(db, n, s.physnet);
          req := AddRequired(db, req, s, vni, chassis, segs, done);
          done := done + {s};
          assert vlans[n][..i + 1] == vlans[n][..i] + [s];
        }
        assert vlans[n][..|vlans[n]|] == vlans[n];
        forall s | s in segs && s.kind == VlanSegment ensures s in done <==> s.networkId !in todo {
          GroupMember(segs, n, VlanSegment, s);
        }
      }
      PartialIsAll(db, segs, Mine(db), done, req);
    }

    /** The innermost loop: one VLAN segment into the maps of the chassis that want it. */
    method AddRequired(db: Databases, req0: VlanMap, s: Segment, vni: Option<int>,
                       chassis: set<string>, ghost segs: seq<Segment>, ghost done: set<Segment>)
      returns (req: VlanMap)
      requires s in segs && s.kind == VlanSegment && vni == FirstVni(segs, s.networkId)
      requires chassis <= WantedBy(db, s.networkId, s.physnet)
      requires forall c | c in Mine(db) :: c in chassis <==> c in WantedBy(db, s.networkId, s.physnet)
      requires PartialMap(db, segs, Mine(db), done, req0)
      ensures PartialMap(db, segs, Mine(db), done + {s}, req)
    {
      req := req0;
      var todo := chassis;
      while todo != {}
        invariant todo <= chassis
        invariant forall k, v :: Holds(req, k, v) <==> Holds(req0, k, v) || Added(s, chassis - todo, k, v)
        invariant forall k, v | Holds(req, k, v) :: InfoFor(db, segs, k, v, req[k][v])
        decreases todo
      {
        var c :| c in todo;
        todo := todo - {c};
        if ShouldManage(c) {
          WantedIsKnown(db, s.networkId, s.physnet, c);
          var k := (c, s.physnet);
          var info := VlanInfo(vni, s.id);
          assert Requires(db, s, k);
          assert InfoFor(db, segs, k, s.segmentationId, info);
          req := Put(req, k, s.segmentationId, info);
        }
      }
      forall k, v
        ensures Holds(req, k, v) <==> k.0 in Mine(db) && SomeRequires(db, done + {s}, k, v)
      {
        if k.0 in Mine(db) {
          assert Added(s, chassis, k, v) <==> Requires(db, s, k) && s.segmentationId == v;
          assert SomeRequires(db, done + {s}, k, v)
            <==> SomeRequires(db, done, k, v) || (Requires(db, s, k) && s.segmentationId == v);
        }
      }
    }

    /** The agent adds VLAN `v` of segment `s` for chassis `k.0`. */
    ghost predicate Added(s: Segment, chassis: set<string>, k: Key, v: int) {
      k.1 == s.physnet && v == s.segmentationId && k.0 in chassis && ShouldManage(k.0)
    }

    lemma WantedIsKnown(db: Databases, networkId: string, physnet: string, c: string)
      requires c in WantedBy(db, networkId, physnet) && ShouldManage(c)
      ensures c in Mine(db)
    {
    }

    // --- Subports -----------------------------------------------------------

    /** Creates the port, then attaches it; raising calls are logged and dropped. */
    method AddSubport(t: nat, k: Key, vlan: int, anchorNet: nat, info: VlanInfo) returns (ghost made: Option<nat>)
      requires client.Valid() && t in client.trunks && vlan !in client.trunks[t].subs
      modifies client`failures, client`writes, client`ports, client`trunks, client`nextId, client`moves
      ensures client.Valid() && client.nextId >= old(client.nextId) && client.failures >= old(client.failures)
      ensures PortsKept(old(client.St()), old(client.nextId), client.St())
      ensures forall p | p in old(client.ports) :: p in client.ports
      ensures NewOn(old(client.St()), client.St(), anchorNet)
      ensures AnchorsFrom(old(client.St()), client.St(), {})
      ensures LeaksPaid(old(client.St()), old(client.failures), client.St(), client.failures)
      ensures client.failures == old(client.failures) ==> made.Some?
      ensures made.None? ==> client.trunks == old(client.trunks) && client.moves == old(client.moves)
      ensures made.Some? ==>
                && made.value !in old(client.ports) && made.value in client.ports
                && client.ports[made.value] == Port(SubportName(k.0, k.1, Decimal(vlan)), anchorNet, SubportOwner,
                                                    Profile("", k.1, info.segmentId, NonZero(info.vni), []))
                && SubportPort(client.ports[made.value], k, vlan, info)
                && client.trunks == Attach(old(client.St()), t, vlan, made.value).trunks
                && client.moves == old(client.moves) + 1
    {
      hide StoreValid, SubportName, InUse, Leaks;
      made := None;
      ghost var s0 := client.St();
      var profile := Profile("", k.1, info.segmentId, NonZero(info.vni), []);
      var name := SubportName(k.0, k.1, Decimal(vlan));
      SubportNameIsNoAnchor(k.0, k.1, Decimal(vlan));
      var raised, p := client.CreatePort(Port(name, anchorNet, SubportOwner, profile));
      if raised { return; }
      LeaksCreate(s0, p, client.ports[p]);
      ghost var before := client.St();
      raised := client.AddSubport(t, vlan, p);
      if raised { return; }
      LeaksAttach(s0, before, t, vlan, p);
      AttachValid(before, t, vlan, p);
      made := Some(p);
    }

    /** Detaches, then deletes the port. */
    method RemoveSubport(t: nat, port: nat) returns (ghost gone: bool)
      requires client.Valid() && t in client.trunks
      requires exists v :: v in client.trunks[t].subs && client.trunks[t].subs[v] == port
      modifies client`failures, client`writes, client`ports, client`trunks, client`moves
      ensures client.Valid() && client.failures >= old(client.failures)
      ensures PortsKept(old(client.St()), old(client.nextId), client.St())
      ensures forall p | p in old(client.ports) && p != port :: p in client.ports
      ensures LeaksPaid(old(client.St()), old(client.failures), client.St(), client.failures)
      ensures client.failures == old(client.failures) ==> client.ports == old(client.ports) - {port}
      ensures client.failures == old(client.failures) ==> gone
      ensures client.trunks == if gone then Detach(old(client.St()), t, port).trunks else old(client.trunks)
      ensures client.moves == old(client.moves) + if gone then 1 else 0
      ensures !gone ==> client.ports == old(client.ports)
      ensures NoneNew(old(client.St()), client.St())
    {
      hide StoreValid, InUse, Leaks;
      gone := false;
      ghost var s0 := client.St();
      ghost var v :| v in client.trunks[t].subs && client.trunks[t].subs[v] == port;
      var raised := client.RemoveSubport(t, port);
      if raised { return; }
      DetachValid(s0, t, port);
      DetachFrees(s0, t, v);
      gone := true;
      LeaksDetach(s0, t, port);
      LeaksRemove(s0, t, port);
      var failed := client.DeletePort(port);
    }

    /** One trunk: add what is missing, then remove what is extra. */
    method ReconcileTrunkSubports(t: nat, k: Key, want: map<int, VlanInfo>, anchorNet: nat)
      requires client.Valid()
      modifies client`failures, client`writes, client`ports, client`trunks, client`nextId, client`moves
      ensures client.Valid() && client.nextId >= old(client.nextId) && client.failures >= old(client.failures)
      ensures SubportsChange(old(client.St()), old(client.nextId), client.St())
      ensures NewOn(old(client.St()), client.St(), anchorNet)
      ensures forall t' | t' in old(client.trunks) && t' != t :: client.trunks[t'] == old(client.trunks[t'])
      ensures t in old(client.trunks) ==> SubportsMoved(old(client.St()), client.St(), t, k, want)
      ensures t in old(client.trunks) ==>
                Distance(client.St(), t, want) + client.moves == Distance(old(client.St()), t, want) + old(client.moves)
      ensures client.failures == old(client.failures) ==>
                t in old(client.trunks) && client.trunks[t].subs.Keys == Reached(old(client.trunks[t].subs).Keys, want)
      ensures t in old(client.trunks) && old(client.trunks[t].subs).Keys == want.Keys ==>
                client.writes == old(client.writes) && client.St() == old(client.St())
      ensures LeaksPaid(old(client.St()), old(client.failures), client.St(), client.failures)
    {
      hide Leaks, Progress, Distance, StoreValid, SubportsChange, SubportsMoved, SymDiff, Reached, Client.Fresh;
      ghost var s0, n0 := client.St(), client.nextId;
      NothingMoved(s0, n0, t, k, want);
      var raised, trunk := client.GetTrunk(t);
      if raised { return; }
      var current := trunk.subs;
      AddMissing(t, k, want, current, anchorNet);
      RemoveExtra(t, k, want, current, s0, n0);
      ProgressEnd(s0, n0, client.St(), t, k, want);
    }

    /** The first loop of a trunk reconciliation. */
    method AddMissing(t: nat, k: Key, want: map<int, VlanInfo>, current: map<int, nat>, anchorNet: nat)
      requires client.Valid() && t in client.trunks && client.trunks[t].subs == current
      modifies client`failures, client`writes, client`ports, client`trunks, client`nextId, client`moves
      ensures client.Valid() && client.nextId >= old(client.nextId) && client.failures >= old(client.failures)
      ensures Progress(old(client.St()), old(client.nextId), client.St(), t, k, want)
      ensures NewOn(old(client.St()), client.St(), anchorNet)
      ensures t in client.trunks && current.Keys <= client.trunks[t].subs.Keys
      ensures Distance(client.St(), t, want) + client.moves == Distance(old(client.St()), t, want) + old(client.moves)
      ensures client.failures == old(client.failures) ==>
                client.trunks[t].subs.Keys == Reached(current.Keys, want) + (current.Keys - want.Keys)
      ensures want.Keys <= current.Keys ==> client.writes == old(client.writes) && client.St() == old(client.St())
      ensures LeaksPaid(old(client.St()), old(client.failures), client.St(), client.failures)
    {
      hide Leaks, Progress, Distance, Attach, StoreValid, Reached, Adding, SymDiff, PortsKept, SubportPort,
           Client.Fresh;
      ghost var s0, n0 := client.St(), client.nextId;
      ProgressStart(s0, n0, t, k, want);
      AddingStart(current.Keys, want);
      var todo := want.Keys - current.Keys;
      while todo != {}
        invariant LeaksPaid(old(client.St()), old(client.failures), client.St(), client.failures)
        invariant NewOn(s0, client.St(), anchorNet)
        invariant Progress(s0, n0, client.St(), t, k, want)
        invariant client.Valid() && client.nextId >= n0 && client.failures >= old(client.failures)
        invariant t in client.trunks
        invariant Adding(current.Keys, want, todo, client.trunks[t].subs.Keys, client.failures == old(client.failures))
        invariant Distance(client.St(), t, want) + client.moves == Distance(s0, t, want) + old(client.moves)
        invariant want.Keys <= current.Keys ==> client.writes == old(client.writes) && client.St() == s0
        decreases todo
      {
        var v := Pick(todo);
        ghost var s1, n1, todo1 := client.St(), client.nextId, todo;
        AddingAt(current.Keys, want, todo, s1.trunks[t].subs.Keys, v);
        todo := todo - {v};
        ghost var made := None;
        if want[v].segmentId != "" {
          ClientFresh(client);
          made := AddSubport(t, k, v, anchorNet, want[v]);
          NewOnTrans(s0, s1, client.St(), anchorNet);
          ProgressAdd(s0, n0, s1, n1, client.St(), t, k, want, v, made);
        }
        AddingStep(current.Keys, want, todo1, s1.trunks[t].subs.Keys, v, made.Some?);
      }
      AddingEnd(current.Keys, want, client.trunks[t].subs.Keys);
    }

    /** The second loop of a trunk reconciliation. */
    method RemoveExtra(t: nat, k: Key, want: map<int, VlanInfo>, current: map<int, nat>, ghost s0: Store, ghost n0: nat)
      requires client.Valid() && n0 <= client.nextId && Progress(s0, n0, client.St(), t, k, want)
      requires s0.trunks[t].subs == current && t in client.trunks && current.Keys <= client.trunks[t].subs.Keys
      modifies client`failures, client`writes, client`ports, client`trunks, client`moves
      ensures client.Valid() && client.failures >= old(client.failures)
      ensures Progress(s0, n0, client.St(), t, k, want) && t in client.trunks
      ensures NoneNew(old(client.St()), client.St())
      ensures current.Keys * want.Keys <= client.trunks[t].subs.Keys
      ensures Distance(client.St(), t, want) + client.moves == Distance(old(client.St()), t, want) + old(client.moves)
      ensures client.failures == old(client.failures)
              && old(client.trunks)[t].subs.Keys == Reached(current.Keys, want) + (current.Keys - want.Keys) ==>
                client.trunks[t].subs.Keys == Reached(current.Keys, want)
      ensures current.Keys <= want.Keys ==> client.writes == old(client.writes) && client.St() == old(client.St())
      ensures LeaksPaid(old(client.St()), old(client.failures), client.St(), client.failures)
    {
      hide Leaks, Progress, Distance, Detach, StoreValid, Reached, SymDiff, PortsKept, SubportPort, Client.Fresh;
      ghost var d0 := Distance(client.St(), t, want) + client.moves;
      var extra := current.Keys - want.Keys;
      while extra != {}
        invariant LeaksPaid(old(client.St()), old(client.failures), client.St(), client.failures)
        invariant extra <= current.Keys - want.Keys
        invariant t in client.trunks && extra <= client.trunks[t].subs.Keys
        invariant NoneNew(old(client.St()), client.St())
        invariant Progress(s0, n0, client.St(), t, k, want)
        invariant client.Valid() && client.failures >= old(client.failures)
        invariant current.Keys * want.Keys <= client.trunks[t].subs.Keys
        invariant Distance(client.St(), t, want) + client.moves == d0
        invariant client.failures == old(client.failures)
                  && old(client.trunks)[t].subs.Keys == Reached(current.Keys, want) + (current.Keys - want.Keys) ==>
                    client.trunks[t].subs.Keys == Reached(current.Keys, want) + extra
        invariant current.Keys <= want.Keys ==> client.writes == old(client.writes) && client.St() == old(client.St())
        decreases extra
      {
        var v := Pick(extra);
        extra := extra - {v};
        ghost var s1, n1 := client.St(), client.nextId;
        ClientFresh(client);
        ProgressKeeps(s0, n0, s1, t, k, want, v);
        ReachedAvoids(current.Keys, want, v);
        ghost var gone := RemoveSubport(t, current[v]);
        ProgressRemove(s0, n0, s1, n1, client.St(), t, k, want, v, gone);
      }
    }

    /** All found trunks; nothing happens without the subport anchor network. */
    method ReconcileSubports(db: Databases, found: map<Key, nat>, req: VlanMap) returns (raised: bool)
      requires client.Valid() && FoundNamed(client.St(), found)
      modifies client`failures, client`writes, client`ports, client`trunks, client`nextId, client`moves
      ensures client.Valid() && client.nextId >= old(client.nextId) && client.failures >= old(client.failures)
      ensures raised ==> client.failures > old(client.failures)
      ensures SubportsChange(old(client.St()), old(client.nextId), client.St())
      ensures SubportsOn(old(client.St()), client.St())
      ensures FoundInjective(found) ==>
                Walked(old(client.St()), old(client.nextId), client.St(), found, req, {}, false)
                    || client.St() == old(client.St())
      ensures FoundInjective(found) && client.failures == old(client.failures)
                && HasNetwork(old(client.St()), anchorNetwork) ==>
                Walked(old(client.St()), old(client.nextId), client.St(), found, req, {}, true)
      ensures AllMet(old(client.St()), found, req) ==>
                client.writes == old(client.writes) && client.St() == old(client.St())
      ensures LeaksPaid(old(client.St()), old(client.failures), client.St(), client.failures)
    {
      hide NewOn, NoneNew, Leaks, StoreValid, SubportsChange, SubportsMoved, Walked, FoundInjective, Distance, Reached,
           WantOf, Client.Fresh;
      ghost var s0, n0 := client.St(), client.nextId;
      ghost var inj := FoundInjective(found);
      SubportsChangeRefl(s0, n0);
      NoneNewRefl(s0);
      WalkedStart(s0, n0, found, req);
      var net: Option<nat>;
      raised, net := client.FindNetwork(anchorNetwork);
      if raised || net.None? { return; }
      NewOnRefl(s0, net.value);
      var todo := found.Keys;
      while todo != {}
        invariant LeaksPaid(old(client.St()), old(client.failures), client.St(), client.failures)
        invariant !raised && todo <= found.Keys
        invariant client.Valid() && client.nextId >= n0 && client.failures >= old(client.failures)
        invariant SubportsChange(s0, n0, client.St()) && NewOn(s0, client.St(), net.value)
        invariant inj ==> Walked(s0, n0, client.St(), found, req, todo, client.failures == old(client.failures))
        invariant AllMet(s0, found, req) ==> client.writes == old(client.writes) && client.St() == s0
        decreases todo
      {
        var k :| k in todo;
        ghost var s1, n1, f1 := client.St(), client.nextId, client.failures;
        ClientFresh(client);
        var want := if k in req then req[k] else map[];
        WantIs(req, k, want);
        ReconcileTrunkSubports(found[k], k, want, net.value);
        ClientFresh(client);
        NewOnTrans(s0, s1, client.St(), net.value);
        SubportsChangeTrans(s0, n0, s1, n1, client.St());
        if inj {
          WalkedAt(s0, n0, s1, found, req, todo, f1 == old(client.failures), k);
          WalkedStep(s0, n0, s1, n1, client.St(), found, req, todo, k,
                     f1 == old(client.failures), client.failures == old(client.failures));
        }
        todo := todo - {k};
      }
      WalkedWeaken(s0, n0, client.St(), found, req, todo, client.failures == old(client.failures));
    }

    /** New ports are subports on a network called like the anchor network. */
    predicate SubportsOn(a: Store, b: Store) {
      NoneNew(a, b) || exists net :: net in a.networks && a.networks[net] == anchorNetwork && NewOn(a, b, net)
    }

    // --- One subport --------------------------------------------------------

    method EnsureSingleSubport(t: nat, k: Key, vlan: int, anchorNet: nat, info: VlanInfo)
      requires client.Valid() && t in client.trunks
      modifies client`failures, client`writes, client`ports, client`trunks, client`nextId, client`moves
      ensures client.Valid() && client.nextId >= old(client.nextId) && client.failures >= old(client.failures)
      ensures SubportNudged(old(client.St()), client.St(), t, k.1, vlan, true, info)
      ensures PortsKept(old(client.St()), old(client.nextId), client.St())
      ensures NewOn(old(client.St()), client.St(), anchorNet)
      ensures AnchorsFrom(old(client.St()), client.St(), {})
      ensures client.failures == old(client.failures) ==>
                client.trunks[t].subs.Keys == old(client.trunks)[t].subs.Keys + {vlan}
      ensures LeaksPaid(old(client.St()), old(client.failures), client.St(), client.failures)
    {
      hide Leaks, StoreValid, Client.Fresh;
      var raised, trunk := client.GetTrunk(t);
      if raised || vlan in trunk.subs { return; }
      ghost var made := AddSubport(t, k, vlan, anchorNet, info);
    }

    method RemoveSingleSubport(t: nat, k: Key, vlan: int)
      requires client.Valid() && t in client.trunks
      modifies client`failures, client`writes, client`ports, client`trunks, client`moves
      ensures client.Valid() && client.failures >= old(client.failures)
      ensures SubportNudged(old(client.St()), client.St(), t, k.1, vlan, false, VlanInfo(None, ""))
      ensures PortsKept(old(client.St()), old(client.nextId), client.St())
      ensures NoneNew(old(client.St()), client.St())
      ensures AnchorsFrom(old(client.St()), client.St(), {})
      ensures client.failures == old(client.failures) ==>
                client.trunks[t].subs.Keys == old(client.trunks)[t].subs.Keys - {vlan}
      ensures LeaksPaid(old(client.St()), old(client.failures), client.St(), client.failures)
    {
      hide Leaks, StoreValid, Client.Fresh, Detach;
      ghost var s0 := client.St();
      ClientFresh(client);
      var raised, trunk := client.GetTrunk(t);
      if raised || vlan !in trunk.subs { return; }
      ghost var gone := RemoveSubport(t, trunk.subs[vlan]);
      ClientFresh(client);
      NoNewPorts(s0, client.nextId, client.St());
      if gone { DetachedNudge(s0, t, vlan); }
    }

    lemma NoNewPorts(a: Store, n: nat, b: Store)
      requires PortsKept(a, n, b) && forall p | p in b.ports :: p < n
      ensures AnchorsFrom(a, b, {})
    {
    }

    lemma DetachedNudge(s: Store, t: nat, v: int)
      requires StoreValid(s) && t in s.trunks && v in s.trunks[t].subs
      ensures var s' := Detach(s, t, s.trunks[t].subs[v]);
              && s'.trunks[t].subs == s.trunks[t].subs - {v} && SameTrunks(s, s')
              && forall t' | t' in s.trunks && t' != t :: s'.trunks[t'] == s.trunks[t']
    {
      DetachOne(s, t, v);
    }

    // --- Cleanup ------------------------------------------------------------

    /** One orphaned trunk: its subports, the trunk, its anchor port, and no other port. */
    method RemoveOrphan(t: nat, trunk: Trunk)
      requires client.Valid() && t in client.trunks && client.trunks[t] == trunk
      modifies client`failures, client`writes, client`ports, client`trunks, client`moves
      ensures client.Valid() && client.failures >= old(client.failures)
      ensures PortsKept(old(client.St()), client.nextId, client.St())
      ensures forall t' | t' in client.trunks :: t' in old(client.trunks)
      ensures forall t' | t' in old(client.trunks) && t' != t ::
                t' in client.trunks && client.trunks[t'] == old(client.trunks)[t']
      ensures t in client.trunks ==> client.trunks[t].name == trunk.name && client.trunks[t].parent == trunk.parent
                                     && client.trunks[t].subs.Keys <= trunk.subs.Keys
      ensures old(client.ports).Keys - trunk.subs.Values - {trunk.parent} <= client.ports.Keys <= old(client.ports).Keys
      ensures client.failures == old(client.failures) ==>
                t !in client.trunks && trunk.parent !in client.ports && client.ports.Keys !! trunk.subs.Values
      ensures LeaksPaid(old(client.St()), old(client.failures), client.St(), client.failures)
    {
      hide Leaks, StoreValid, InUse, Detach, SubportsGone, Client.Fresh, PortsKept;
      ghost var s0 := client.St();
      EmptyTrunk(t, trunk);
      ghost var s2 := client.St();
      ClientFresh(client);
      OrphanPorts(s0.ports.Keys, s2.ports.Keys, trunk.subs, trunk.parent);
      LeaksDropTrunk(s2, t);
      var raised := client.DeleteTrunk(t);
      FewerPorts(s0, client.nextId, s2, client.St());
      if raised { return; }
      DropTrunkValid(s2, t);
      LeaksDelete(client.St(), trunk.parent);
      raised := client.DeletePort(trunk.parent);
      FewerPorts(s0, client.nextId, s2, client.St());
    }

    lemma FewerPorts(a: Store, n: nat, b: Store, c: Store)
      requires PortsKept(a, n, b) && forall p | p in c.ports :: p in b.ports && c.ports[p] == b.ports[p]
      ensures PortsKept(a, n, c)
    {
    }

    /** The subports of an orphaned trunk. */
    method EmptyTrunk(t: nat, trunk: Trunk)
      requires client.Valid() && t in client.trunks && client.trunks[t] == trunk
      modifies client`failures, client`writes, client`ports, client`trunks, client`moves
      ensures client.Valid() && client.failures >= old(client.failures)
      ensures PortsKept(old(client.St()), client.nextId, client.St())
      ensures client.trunks.Keys == old(client.trunks).Keys
      ensures forall t' | t' in old(client.trunks) && t' != t :: client.trunks[t'] == old(client.trunks)[t']
      ensures Shrunk(trunk, client.trunks[t], {})
      ensures SubportsGone(old(client.ports).Keys, client.ports.Keys, trunk.subs, {},
                       client.failures == old(client.failures))
      ensures |Leaks(client.St())| + old(client.failures) + |client.trunks[t].subs|
              <= |Leaks(old(client.St()))| + client.failures
    {
      hide Leaks, StoreValid, InUse, Detach, SubportsGone;
      ghost var s0 := client.St();
      var todo := trunk.subs.Keys;
      NoneGoneYet(s0.ports.Keys, trunk.subs);
      while todo != {}
        invariant client.Valid() && client.failures >= old(client.failures)
        invariant PortsKept(s0, client.nextId, client.St())
        invariant client.trunks.Keys == s0.trunks.Keys
        invariant forall t' | t' in s0.trunks && t' != t :: client.trunks[t'] == s0.trunks[t']
        invariant Shrunk(trunk, client.trunks[t], todo)
        invariant SubportsGone(s0.ports.Keys, client.ports.Keys, trunk.subs, todo,
                           client.failures == old(client.failures))
        invariant |Leaks(client.St())| + old(client.failures) + |client.trunks[t].subs|
                  <= |Leaks(s0)| + client.failures + |todo|
        decreases todo
      {
        var v := Pick(todo);
        ghost var s1, todo1 := client.St(), todo;
        ClientFresh(client);
        todo := todo - {v};
        assert v in client.trunks[t].subs && client.trunks[t].subs[v] == trunk.subs[v];
        ghost var gone := RemoveSubport(t, trunk.subs[v]);
        PortsKeptTrans(s0, client.nextId, s1, client.nextId, client.St());
        if gone { DetachShrinks(s1, t, v); }
        StillListed(s1, t, v, gone, client.St());
        SubportGone(s0.ports.Keys, s1.ports.Keys, client.ports.Keys, trunk.subs, todo1, v);
      }
    }

    lemma OrphanPorts(before: set<nat>, now: set<nat>, subs: map<int, nat>, parent: nat)
      ensures forall clean :: SubportsGone(before, now, subs, {}, clean) ==>
                now <= before && before - subs.Values <= now
      ensures SubportsGone(before, now, subs, {}, true) ==> now !! subs.Values
    {
      if SubportsGone(before, now, subs, {}, true) {
        forall x | x in subs.Values ensures x !in now {
          var v := KeyOf(subs, x);
        }
      }
    }

    /** Only subports went, and when nothing raised all but those of `todo` did. */
    ghost predicate SubportsGone(before: set<nat>, now: set<nat>, subs: map<int, nat>, todo: set<int>, clean: bool) {
      && before - subs.Values <= now <= before
      && (clean ==> forall v | v in subs && v !in todo :: subs[v] !in now)
    }

    lemma NoneGoneYet(ports: set<nat>, subs: map<int, nat>)
      ensures SubportsGone(ports, ports, subs, subs.Keys, true)
    {
    }

    lemma SubportGone(before: set<nat>, now: set<nat>, now': set<nat>, subs: map<int, nat>, todo: set<int>, v: int)
      requires v in todo && v in subs && now - {subs[v]} <= now' <= now
      ensures forall clean :: SubportsGone(before, now, subs, todo, clean) ==>
                SubportsGone(before, now', subs, todo - {v}, false)
      ensures SubportsGone(before, now, subs, todo, true) && now' == now - {subs[v]} ==>
                SubportsGone(before, now', subs, todo - {v}, true)
    {
    }

    lemma StillListed(a: Store, t: nat, v: int, gone: bool, b: Store)
      requires StoreValid(a) && t in a.trunks && v in a.trunks[t].subs
      requires b.trunks == if gone then Detach(a, t, a.trunks[t].subs[v]).trunks else a.trunks
      ensures |b.trunks[t].subs| == |a.trunks[t].subs| - if gone then 1 else 0
    {
      if gone {
        DetachOne(a, t, v);
        var subs := a.trunks[t].subs;
        assert subs == (subs - {v})[v := subs[v]];
      }
    }

    method CleanupTrunks(db: Databases, valid: set<Key>)
      requires client.Valid() && valid == ValidPairs(db)
      modifies client`failures, client`writes, client`ports, client`trunks, client`moves
      ensures client.Valid() && client.failures >= old(client.failures)
      ensures Cleaned(db, old(client.St()), client.nextId, client.St())
      ensures NoneNew(old(client.St()), client.St())
      ensures client.failures == old(client.failures) ==> NoOrphans(db, client.St())
      ensures NoOrphans(db, old(client.St())) ==> client.writes == old(client.writes) && client.St() == old(client.St())
      ensures LeaksPaid(old(client.St()), old(client.failures), client.St(), client.failures)
      ensures client.failures == old(client.failures) ==> AnchorsGone(old(client.St()), client.St())
    {
      hide Leaks, StoreValid, PortsKept, Cleaned, ParseTrunkName, Client.Fresh, NoneNew;
      ghost var s0 := client.St();
      ClientFresh(client);
      CleanedRefl(db, s0, client.nextId);
      NoneNewRefl(s0);
      var raised, all := client.ListTrunks();
      if raised { return; }
      var todo := all.Keys;
      while todo != {}
        invariant LeaksPaid(old(client.St()), old(client.failures), client.St(), client.failures)
        invariant client.Valid() && client.failures >= old(client.failures)
        invariant Cleaned(db, s0, client.nextId, client.St())
        invariant forall t | t in todo :: t in s0.trunks && t in client.trunks && client.trunks[t] == s0.trunks[t]
        invariant forall t | t in client.trunks :: t in s0.trunks && client.trunks[t].name == s0.trunks[t].name
        invariant client.failures == old(client.failures) ==>
                    forall t | t in client.trunks && t !in todo :: !Orphan(db, client.trunks[t].name)
        invariant client.ports.Keys <= s0.ports.Keys && NoneNew(s0, client.St())
        invariant client.failures == old(client.failures) ==> AnchorsGone(s0, client.St())
        invariant NoOrphans(db, s0) ==> client.writes == old(client.writes) && client.St() == s0
        decreases todo
      {
        var t :| t in todo;
        todo := todo - {t};
        ghost var s1 := client.St();
        if ParseTrunkName(all[t].name).Some? {
          if ParseTrunkName(all[t].name).value !in valid {
            ClientFresh(client);
            RemoveOrphan(t, all[t]);
            NoneNewStep(s0, s1, client.nextId, client.St());
            CleanedStep(db, s0, client.nextId, s1, client.St(), t);
          }
        }
      }
    }

    lemma NoneNewRefl(s: Store)
      ensures NoneNew(s, s)
    {
    }

    lemma NoneNewStep(s0: Store, s1: Store, n: nat, s2: Store)
      requires NoneNew(s0, s1) && PortsKept(s1, n, s2) && s2.ports.Keys <= s1.ports.Keys
      requires forall p | p in s1.ports :: p < n
      ensures NoneNew(s0, s2)
    {
    }

    method CleanupNetworks(db: Databases)
      requires client.Valid()
      modifies client`failures, client`writes, client`networks
      ensures client.Valid() && client.failures >= old(client.failures)
      ensures NetworksCleaned(db, old(client.St()), client.St())
      ensures client.failures == old(client.failures) ==> NoOrphanNetworks(db, client.St())
      ensures NoOrphanNetworks(db, old(client.St())) ==>
                client.writes == old(client.writes) && client.St() == old(client.St())
      ensures LeaksPaid(old(client.St()), old(client.failures), client.St(), client.failures)
    {
      hide Leaks, StoreValid, OrphanNetwork, NoOrphanNetworks, Client.Fresh, ParseGroupNetworkName;
      ghost var s0 := client.St();
      var names := set g | g in db.groups :: g.name;
      LeaksSame(s0, s0);
      var raised, all := client.ListNetworks();
      if raised { return; }
      var todo := all.Keys;
      while todo != {}
        invariant client.Valid() && client.failures >= old(client.failures)
        invariant LeaksPaid(old(client.St()), old(client.failures), client.St(), client.failures)
        invariant todo <= client.networks.Keys
        invariant NetworksCleaned(db, s0, client.St())
        invariant client.failures == old(client.failures) ==>
                    forall n | n in client.networks && n !in todo :: !OrphanNetwork(s0, db, n)
        invariant NoOrphanNetworks(db, s0) ==> client.writes == old(client.writes) && client.St() == s0
        decreases todo
      {
        var n := Pick(todo);
        todo := todo - {n};
        raised := CleanupNetwork(db, n, names, s0);
        LeaksSame(s0, client.St());
        if raised { return; }
      }
      OrphansLeft(db, s0, client.St());
    }

    /** One network: deleted when its group is gone and no anchor port is left on it. */
    method CleanupNetwork(db: Databases, n: nat, names: set<string>, ghost s0: Store) returns (raised: bool)
      requires client.Valid() && n in client.networks && names == set g | g in db.groups :: g.name
      requires NetworksCleaned(db, s0, client.St()) && client.ports == s0.ports
      modifies client`failures, client`writes, client`networks
      ensures client.Valid() && client.failures >= old(client.failures)
      ensures old(client.networks).Keys - {n} <= client.networks.Keys <= old(client.networks).Keys
      ensures NetworksCleaned(db, s0, client.St())
      ensures raised ==> client.failures > old(client.failures)
      ensures client.failures == old(client.failures) && n in client.networks ==> !OrphanNetwork(s0, db, n)
      ensures NoOrphanNetworks(db, s0) ==>
                client.writes == old(client.writes) && client.networks == old(client.networks)
    {
      hide StoreValid, OrphanNetwork, NoOrphanNetworks, Client.Fresh, ParseGroupNetworkName;
      raised := false;
      IsOrphanNetwork(db, s0, n, names);
      var group := ParseGroupNetworkName(client.networks[n]);
      if group.Some? {
        if group.value !in names {
          var any: bool;
          raised, any := client.HasAnchorOn(n);
          if raised { return; }
          if !any {
            var failed := client.DeleteNetwork(n);
          }
        }
      }
    }

    lemma IsOrphanNetwork(db: Databases, s: Store, n: nat, names: set<string>)
      requires n in s.networks && names == set g | g in db.groups :: g.name
      ensures OrphanNetwork(s, db, n) <==>
                && ParseGroupNetworkName(s.networks[n]).Some? && ParseGroupNetworkName(s.networks[n]).value !in names
                && !exists p :: p in s.ports && s.ports[p].networkId == n && s.ports[p].owner == AnchorOwner
      ensures OrphanNetwork(s, db, n) ==> !NoOrphanNetworks(db, s)
    {
    }

    lemma OrphansLeft(db: Databases, s0: Store, s: Store)
      requires NetworksCleaned(db, s0, s) && s.ports == s0.ports
      ensures (forall n | n in s.networks :: !OrphanNetwork(s0, db, n)) ==> NoOrphanNetworks(db, s)
    {
    }

    // --- The full pass --------------------------------------------------------

    /** Whatever calls raise, the cache is cleared and each trunk only moves towards the VLANs
        required by the segments the pass listed: all of them, unless the listing raised.
        Networks and ports are only made where they belong. When nothing raises the view
        becomes the specified one and the store is converged; on a converged store nothing
        is written. */
    method Reconcile()
      requires client.Valid()
      modifies this`cache, client`failures, client`listFailures, client`writes, client`networks, client`ports,
               client`trunks, client`nextId, client`moves
      ensures client.Valid() && cache.None? && client.failures >= old(client.failures)
      ensures db.None? ==> client.St() == old(client.St()) && client.writes == old(client.writes)
      ensures db.Some? && DashFree(db.value) ==>
                exists segs :: ListedAs(segs, old(client.listFailures))
                               && PassBounded(db.value, segs, Mine(db.value), old(client.St()), client.St())
      ensures db.Some? ==> NewNetworks(db.value, old(client.St()), client.St())
      ensures db.Some? && !StartsWith(anchorNetwork, GROUP_PREFIX) ==>
                PortsPlaced(db.value, MyPairs(db.value, Mine(db.value)), anchorNetwork, old(client.St()), client.St())
      ensures CleanRun(old(client.failures)) ==>
                && View(client.St()) == PassView(View(old(client.St())), db.value, client.segments, Mine(db.value))
                && Converged(client.St(), db.value, client.segments, Mine(db.value), anchorNetwork, linkInfo)
      ensures CleanRun(old(client.failures)) && old(Settled()) ==>
                client.writes == old(client.writes) && client.St() == old(client.St())
      ensures LeaksPaid(old(client.St()), old(client.failures), client.St(), client.failures)
    {
      hide Leaks;
      cache := None;
      if db.None? { return; }
      var m := BuildChassisCache(db.value);
      cache := Some(m);
      RunPass(db.value);
      cache := None;
    }

    /** All segments, or a part of them when listing them raised. */
    ghost predicate ListedAs(segs: seq<Segment>, listFailures: nat)
      reads client`segments, client`listFailures
    {
      segs <= client.segments && (client.listFailures == listFailures ==> segs == client.segments)
    }

    /** Nothing raised, and the configuration is one the pass can serve. */
    ghost predicate CleanRun(failures: nat)
      reads this`db, client`failures, client`segments
    {
      && client.failures == failures && db.Some? && autoCreate && DashFree(db.value)
      && !StartsWith(anchorNetwork, GROUP_PREFIX)
      && forall s | s in client.segments :: s.id != ""
    }

    ghost predicate Settled()
      reads this`db, client
    {
      db.Some? && Converged(client.St(), db.value, client.segments, Mine(db.value), anchorNetwork, linkInfo)
    }

    /** Networks are only made for the agent: the anchor network, and one for each of its groups. */
    predicate NewNetworks(d: Databases, a: Store, b: Store) {
      forall n | n in b.networks :: (n in a.networks && b.networks[n] == a.networks[n])
                                    || b.networks[n] in InfraNames(d, Mine(d), anchorNetwork)
    }

    lemma EarlyPlaced(d: Databases, s0: Store, s1: Store, s2: Store)
      requires NetworksGrow(s0, s1, InfraNames(d, Mine(d), anchorNetwork)) && s1.ports == s0.ports
      requires AnchorsPlaced(d, s1, s2, MyPairs(d, Mine(d))) && s2.networks == s1.networks
      ensures NewNetworks(d, s0, s2) && PortsPlaced(d, MyPairs(d, Mine(d)), anchorNetwork, s0, s2)
    {
      PlacedAnchors(d, MyPairs(d, Mine(d)), anchorNetwork, s1, s2);
    }

    /** No network of a new port is taken for an orphan. */
    lemma PlaceStays(d: Databases, ks: set<Key>, s4: Store, s5: Store, p: Port)
      requires PortPlaced(s4, d, ks, anchorNetwork, p) && NetworksCleaned(d, s4, s5)
      requires !StartsWith(anchorNetwork, GROUP_PREFIX)
      ensures PortPlaced(s5, d, ks, anchorNetwork, p)
    {
      if k :| k in ks && AnchorOn(s4, d, k, p) {
        var g :| g in d.groups && k.0 in g.members && IsNetwork(s4, p.networkId, GroupNetworkName(g.name));
        GroupNetworkRoundTrip(g.name);
        assert IsNetwork(s5, p.networkId, GroupNetworkName(g.name));
        assert AnchorOn(s5, d, k, p);
      }
    }

    lemma PassPlaces(d: Databases, g: Stages)
      requires NewNetworks(d, g.s0, g.s2) && PortsPlaced(d, MyPairs(d, Mine(d)), anchorNetwork, g.s0, g.s2)
      requires Staged(d, MyPairs(d, Mine(d)), g) && SubportsOn(g.s2, g.s3)
      requires NoneNew(g.s3, g.s5) && NetworksCleaned(d, g.s4, g.s5)
      ensures NewNetworks(d, g.s0, g.s5)
      ensures !StartsWith(anchorNetwork, GROUP_PREFIX) ==>
                PortsPlaced(d, MyPairs(d, Mine(d)), anchorNetwork, g.s0, g.s5)
    {
      hide PortPlaced, OrphanNetwork;
      var ks := MyPairs(d, Mine(d));
      if !NoneNew(g.s2, g.s3) {
        var net :| net in g.s2.networks && g.s2.networks[net] == anchorNetwork && NewOn(g.s2, g.s3, net);
        PlacedSubports(d, ks, anchorNetwork, g.s2, g.s3, net);
      }
      PortsPlacedTrans(d, ks, anchorNetwork, g.s0, g.s2, g.s3);
      if !StartsWith(anchorNetwork, GROUP_PREFIX) {
        forall p | p in g.s5.ports && !(p in g.s0.ports && SamePort(g.s5.ports[p], g.s0.ports[p]))
          ensures PortPlaced(g.s5, d, ks, anchorNetwork, g.s5.ports[p])
        {
          AnchorStaysOn(d, ks, anchorNetwork, g.s3, g.s4, g.s5.ports[p]);
          PlaceStays(d, ks, g.s4, g.s5, g.s5.ports[p]);
        }
      }
    }

    /** The last two steps of the full pass: subports, then cleanup. */
    method FinishPass(d: Databases, found: map<Key, nat>, req: VlanMap)
      returns (ghost s3: Store, ghost n3: nat, ghost s4: Store)
      requires client.Valid() && FoundNamed(client.St(), found)
      modifies client`failures, client`writes, client`networks, client`ports, client`trunks, client`nextId,
               client`moves
      ensures client.Valid() && client.failures >= old(client.failures)
      ensures StoreValid(s3) && StoreValid(s4) && old(client.nextId) <= n3
      ensures SubportsChange(old(client.St()), old(client.nextId), s3) && Cleaned(d, s3, n3, s4)
      ensures SubportsOn(old(client.St()), s3) && NoneNew(s3, client.St())
      ensures client.ports == s4.ports && client.trunks == s4.trunks
      ensures NetworksCleaned(d, s4, client.St())
      ensures FoundInjective(found) ==>
                Walked(old(client.St()), old(client.nextId), s3, found, req, {}, false) || s3 == old(client.St())
      ensures client.failures == old(client.failures) ==>
                && (FoundInjective(found) && HasNetwork(old(client.St()), anchorNetwork) ==>
                      Walked(old(client.St()), old(client.nextId), s3, found, req, {}, true))
                && NoOrphans(d, s4) && NoOrphanNetworks(d, client.St())
      ensures AllMet(old(client.St()), found, req) && NoOrphans(d, old(client.St()))
              && NoOrphanNetworks(d, old(client.St())) ==>
                client.writes == old(client.writes) && client.St() == old(client.St())
      ensures LeaksPaid(old(client.St()), old(client.failures), client.St(), client.failures)
    {
      hide Leaks, StoreValid, SubportsChange, Walked, Cleaned, FoundNamed, FoundInjective, AllMet, NoOrphans,
           OrphanNetwork, NoOrphanNetworks, NetworksCleaned, Client.Fresh, HasNetwork, ValidPairs;
      var raised := ReconcileSubports(d, found, req);
      s3, n3, s4 := client.St(), client.nextId, client.St();
      ClientFresh(client);
      CleanedRefl(d, s3, n3);
      NothingCleaned(d, s4);
      if raised { return; }
      var valid := GetChassisPhysnets(d);
      CleanupTrunks(d, valid);
      s4 := client.St();
      ClientFresh(client);
      NothingCleaned(d, s4);
      CleanupNetworks(d);
    }

    lemma PlacedRefl(d: Databases, s: Store)
      ensures AnchorsPlaced(d, s, s, MyPairs(d, Mine(d)))
    {
    }

    lemma NothingCleaned(d: Databases, s: Store)
      ensures NetworksCleaned(d, s, s)
    {
    }

    /** The body of the full pass, with the cache set. */
    method RunPass(d: Databases)
      requires client.Valid() && db == Some(d) && cache.Some? && CacheOk(d)
      modifies client`failures, client`listFailures, client`writes, client`networks, client`ports, client`trunks,
               client`nextId, client`moves
      ensures client.Valid() && client.failures >= old(client.failures)
      ensures DashFree(d) ==> exists segs :: ListedAs(segs, old(client.listFailures))
                                             && PassBounded(d, segs, Mine(d), old(client.St()), client.St())
      ensures NewNetworks(d, old(client.St()), client.St())
      ensures !StartsWith(anchorNetwork, GROUP_PREFIX) ==>
                PortsPlaced(d, MyPairs(d, Mine(d)), anchorNetwork, old(client.St()), client.St())
      ensures CleanRun(old(client.failures)) ==>
                && View(client.St()) == PassView(View(old(client.St())), d, client.segments, Mine(d))
                && Converged(client.St(), d, client.segments, Mine(d), anchorNetwork, linkInfo)
      ensures CleanRun(old(client.failures)) && old(Settled()) ==>
                client.writes == old(client.writes) && client.St() == old(client.St())
      ensures LeaksPaid(old(client.St()), old(client.failures), client.St(), client.failures)
    {
      hide Leaks, StoreValid, InfraOk, Discovered, SubportsChange, Walked, Cleaned, PassBounded, PassView, Converged,
           FoundNamed, FoundInjective, FoundAll, AllReady, AllMet, NoOrphans, OrphanNetwork, View, RequiredMap,
           MyPairs, ValidPairs, Staged, CleanStages, OnlyMine, DashFree, Client.Fresh, CacheOk, StartsWith,
           NoOrphanNetworks, NetworksCleaned, HasNetwork, AnchorReady, AnchorsPlaced, PortsPlaced, NetworksGrow,
           InfraNames, NoneNew, SubportsOn, NewNetworks;
      ghost var mine, ks := Mine(d), MyPairs(d, Mine(d));
      ghost var s0, n0 := client.St(), client.nextId;
      ClientFresh(client);
      DiscoveredRefl(s0, ks);
      SettledMeans(d, client.segments, s0);
      var raised := EnsureInfrastructure(d);
      ghost var s1 := client.St();
      ClientFresh(client);
      DiscoveredRefl(s1, ks);
      PlacedRefl(d, s1);
      EarlyPlaced(d, s0, s1, s1);
      if raised { EarlyBounded(d, client.segments, mine, s0, s1, s1, client.nextId); return; }
      var found: map<Key, nat>;
      raised, found := DiscoverTrunks(d);
      ghost var s2, n2 := client.St(), client.nextId;
      ClientFresh(client);
      EarlyBounded(d, client.segments, mine, s0, s1, s2, n2);
      EarlyPlaced(d, s0, s1, s2);
      if raised { return; }
      var req: VlanMap;
      ghost var segs: seq<Segment>;
      req, segs := CalculateRequiredVlans(d);
      SettledMet(d, segs, s0, found, req);
      NetworkStays(d, mine, s1, s2);
      ghost var s3, n3, s4 := FinishPass(d, found, req);
      SubportsOnlyMine(d, segs, mine, s2, n2, s3, found, req);
      ghost var g := Stages(s0, s1, s2, n2, s3, n3, s4, client.St());
      StagedBounded(d, segs, mine, g);
      PassPlaces(d, g);
      if CleanRun(old(client.failures)) {
        CleanPass(d, segs, mine, found, req, g);
      }
    }

    lemma SettledMeans(d: Databases, segs: seq<Segment>, s: Store)
      ensures Converged(s, d, segs, Mine(d), anchorNetwork, linkInfo) ==>
                && InfraOk(s, d, Mine(d), anchorNetwork) && AllReady(s, MyPairs(d, Mine(d)))
                && NoOrphans(d, s) && NoOrphanNetworks(d, s)
    {
    }

    lemma NetworkStays(d: Databases, mine: set<string>, s1: Store, s2: Store)
      requires Discovered(s1, s2, MyPairs(d, mine))
      ensures InfraOk(s1, d, mine, anchorNetwork) ==> HasNetwork(s2, anchorNetwork)
    {
    }

    lemma SettledMet(d: Databases, segs: seq<Segment>, s: Store, found: map<Key, nat>, req: VlanMap)
      requires found.Keys <= MyPairs(d, Mine(d)) && RequiredMap(d, segs, Mine(d), req)
      ensures Converged(s, d, segs, Mine(d), anchorNetwork, linkInfo) && DashFree(d) && FoundNamed(s, found) ==>
                AllMet(s, found, req)
    {
      if Converged(s, d, segs, Mine(d), anchorNetwork, linkInfo) && DashFree(d) && FoundNamed(s, found) {
        forall k | k in found ensures s.trunks[found[k]].subs.Keys == WantOf(req, k).Keys {
          TrunkNameRoundTrip(k.0, k.1);
          WantIsRequired(d, segs, Mine(d), req, k);
        }
      }
    }

    lemma SubportsOnlyMine(d: Databases, segs: seq<Segment>, mine: set<string>, s2: Store, n2: nat, s3: Store,
                           found: map<Key, nat>, req: VlanMap)
      requires found.Keys <= MyPairs(d, mine) && FoundNamed(s2, found) && RequiredMap(d, segs, mine, req)
      ensures DashFree(d) ==> FoundInjective(found)
      ensures DashFree(d) && (Walked(s2, n2, s3, found, req, {}, false) || s3 == s2) ==> OnlyMine(d, segs, mine, s2, s3)
    {
      if DashFree(d) {
        FoundIsInjective(d, s2, found);
        if Walked(s2, n2, s3, found, req, {}, false) {
          WalkedOnlyMine(d, segs, mine, s2, n2, s3, found, req, false);
        }
      }
    }

    lemma CleanPass(d: Databases, segs: seq<Segment>, mine: set<string>, found: map<Key, nat>, req: VlanMap, g: Stages)
      requires DashFree(d) && mine == Mine(d) && Staged(d, MyPairs(d, mine), g)
      requires !StartsWith(anchorNetwork, GROUP_PREFIX) && forall s | s in segs :: s.id != ""
      requires InfraOk(g.s1, d, mine, anchorNetwork)
      requires found.Keys <= MyPairs(d, mine) && FoundNamed(g.s2, found)
      requires FoundAll(d, g.s1, g.s2, MyPairs(d, mine), found)
      requires RequiredMap(d, segs, mine, req) && Walked(g.s2, g.n2, g.s3, found, req, {}, true)
      requires NoOrphans(d, g.s4) && NoOrphanNetworks(d, g.s5) && NetworksCleaned(d, g.s4, g.s5)
      ensures View(g.s5) == PassView(View(g.s0), d, segs, mine)
      ensures Converged(g.s5, d, segs, mine, anchorNetwork, linkInfo)
    {
      hide StoreValid, Staged, InfraOk, Available, AnchorReady, Walked, CleanStages, Reached, RequiredMap,
           OrphanNetwork, NoOrphanNetworks, NetworksCleaned, NoOrphans, PassView, View, Converged, DashFree, MyPairs,
           StartsWith;
      forall k | k in MyPairs(d, mine) ensures k in found && AnchorReady(g.s2, k, linkInfo(k)) {
        PairAvailable(d, mine, g.s1, k);
      }
      forall k | k in found
        ensures found[k] in g.s3.trunks && g.s3.trunks[found[k]].subs.Keys == RequiredVlans(d, segs, k)
      {
        WalkedEnd(g.s2, g.n2, g.s3, found, req, k);
        ReachedIsRequired(d, segs, mine, req, g.s2.trunks[found[k]].subs.Keys, k);
      }
      CleanStagesHold(d, segs, mine, found, req, g);
      PassViewReached(d, segs, mine, anchorNetwork, linkInfo, found, g);
      PassConverges(d, segs, mine, anchorNetwork, linkInfo, found, g);
    }

    lemma CleanStagesHold(d: Databases, segs: seq<Segment>, mine: set<string>, found: map<Key, nat>, req: VlanMap,
        g: Stages)
      requires InfraOk(g.s1, d, mine, anchorNetwork)
      requires found.Keys == MyPairs(d, mine) && FoundNamed(g.s2, found)
      requires forall k | k in found :: AnchorReady(g.s2, k, linkInfo(k))
      requires forall k | k in found ::
                 found[k] in g.s3.trunks && g.s3.trunks[found[k]].subs.Keys == RequiredVlans(d, segs, k)
      requires Walked(g.s2, g.n2, g.s3, found, req, {}, true)
      requires NoOrphans(d, g.s4) && NoOrphanNetworks(d, g.s5) && NetworksCleaned(d, g.s4, g.s5)
      ensures CleanStages(d, segs, mine, anchorNetwork, linkInfo, found, g)
    {
    }

    lemma PairAvailable(d: Databases, mine: set<string>, s: Store, k: Key)
      requires InfraOk(s, d, mine, anchorNetwork) && k in MyPairs(d, mine)
      ensures Available(s, d, k)
    {
    }

    lemma ReachedIsRequired(d: Databases, segs: seq<Segment>, mine: set<string>, req: VlanMap, had: set<int>, k: Key)
      requires RequiredMap(d, segs, mine, req) && k in MyPairs(d, mine)
      requires forall s | s in segs :: s.id != ""
      ensures Reached(had, WantOf(req, k)) == RequiredVlans(d, segs, k)
    {
      WantIsRequired(d, segs, mine, req, k);
      forall v | v in WantOf(req, k) ensures WantOf(req, k)[v].segmentId != "" {
        assert Holds(req, k, v);
      }
    }

    // --- The targeted pass ----------------------------------------------------

    /** Reads the overlay id (the last one listed) and the VLAN segment of the network. */
    method GetVniAndSegment(networkId: string, physnet: string, vlan: int)
      returns (vni: Option<int>, segmentId: string)
      modifies client`failures, client`listFailures
      ensures client.failures >= old(client.failures)
      ensures segmentId != "" ==>
                exists s :: s in client.segments && SegmentMatches(s, networkId, physnet, vlan) && s.id == segmentId
      ensures client.failures == old(client.failures) ==>
                && vni == LastVni(client.segments, networkId)
                && (SegmentListed(client.segments, networkId, physnet, vlan) && SegmentIds(client.segments) ==>
                    segmentId != "")
    {
      var raised, listed := client.ListSegments();
      vni, segmentId := None, "";
      for i := 0 to |listed|
        modifies {}
        invariant vni == LastVni(listed[..i], networkId)
        invariant segmentId != "" ==>
                    exists s :: s in listed[..i] && SegmentMatches(s, networkId, physnet, vlan) && s.id == segmentId
        invariant SegmentListed(listed[..i], networkId, physnet, vlan) && SegmentIds(listed) ==> segmentId != ""
      {
        var s := listed[i];
        assert listed[..i + 1] == listed[..i] + [s];
        if OverlayOf(s, networkId) {
          vni := Some(s.segmentationId);
        }
        if SegmentMatches(s, networkId, physnet, vlan) {
          segmentId := s.id;
          assert s in listed[..i + 1];
        }
      }
      assert listed[..|listed|] == listed;
    }

    /** The trunks of the chassis in `done` that belong to a group. */
    function TrunksOf(db: Databases, done: set<string>, physnet: string): set<string> {
      set c | c in done && ShouldManage(c) && c in GroupMembers(db) :: TrunkName(c, physnet)
    }

    /** One chassis: its trunk is found or made, then its subport is added or removed. */
    method TouchChassis(d: Databases, c: string, physnet: string, vlan: int, add: bool, anchorNet: nat, info: VlanInfo)
      returns (raised: bool)
      requires client.Valid() && CacheOk(d) && c in Mine(d) && (add || info == VlanInfo(None, ""))
      modifies client`failures, client`writes, client`ports, client`trunks, client`nextId, client`moves
      ensures client.Valid() && client.nextId >= old(client.nextId) && client.failures >= old(client.failures)
      ensures raised ==> client.failures > old(client.failures)
      ensures Nudged(old(client.St()), client.St(), physnet, vlan, add, info)
      ensures client.St().networks == old(client.St()).networks && PortsSteady(old(client.St()), client.St())
      ensures AnchorsFrom(old(client.St()), client.St(), {AnchorPortName(c, physnet)})
      ensures IsNetwork(old(client.St()), anchorNet, anchorNetwork) ==>
                PortsPlaced(d, {(c, physnet)}, anchorNetwork, old(client.St()), client.St())
      ensures !Available(old(client.St()), d, (c, physnet)) && client.failures == old(client.failures) ==>
                client.ports == old(client.ports) && client.trunks == old(client.trunks)
      ensures Available(old(client.St()), d, (c, physnet)) && client.failures == old(client.failures) ==>
                View(client.St()) == Touch(View(old(client.St())), {TrunkName(c, physnet)}, vlan, add)
      ensures LeaksPaid(old(client.St()), old(client.failures), client.St(), client.failures)
    {
      hide Leaks, StoreValid, Available, Discovered, Nudged, SubportNudged, AnchorsFrom, Touch, View, PortsKept,
           AnchorsPlaced, PortsPlaced, NewOn, NoneNew, IsNetwork, Client.Fresh, AnchorReady, HasTrunk, AnchorPortName,
           Mine, TrunkName, CacheOk;
      var k := (c, physnet);
      ghost var s0 := client.St();
      ClientFresh(client);
      var id: Option<nat>;
      raised, id := FindOrCreateTrunk(d, k);
      ghost var s1, n1 := client.St(), client.nextId;
      ClientFresh(client);
      PlacedOnce(d, k, s0, s1, s1, anchorNet);
      NudgedGrow(s0, s1, k, physnet, vlan, add, info);
      assert PortsSteady(s0, s1) by { SteadyGrow(s0, s1, k); }
      if raised || id.None? { return; }
      if add {
        EnsureSingleSubport(id.value, k, vlan, anchorNet, info);
      } else {
        RemoveSingleSubport(id.value, k, vlan);
      }
      ClientFresh(client);
      PlacedOnce(d, k, s0, s1, client.St(), anchorNet);
      TouchedChassis(s0, s1, n1, client.St(), k, id.value, vlan, add, info);
      if client.failures == old(client.failures) {
        TouchedView(s0, s1, client.St(), k, id.value, vlan, add, info);
      }
    }

    /** First perhaps an anchor port, then perhaps a subport. */
    lemma PlacedOnce(d: Databases, k: Key, s0: Store, s1: Store, s2: Store, net: nat)
      requires AnchorsPlaced(d, s0, s1, {k}) && Discovered(s0, s1, {k}) && s2.networks == s1.networks
      requires s2 == s1 || NewOn(s1, s2, net) || NoneNew(s1, s2)
      ensures IsNetwork(s0, net, anchorNetwork) ==> PortsPlaced(d, {k}, anchorNetwork, s0, s2)
    {
      if IsNetwork(s0, net, anchorNetwork) {
        PlacedAnchors(d, {k}, anchorNetwork, s0, s1);
        PlacedSubports(d, {k}, anchorNetwork, s1, s2, net);
        PortsPlacedTrans(d, {k}, anchorNetwork, s0, s1, s2);
      }
    }

    lemma TouchedChassis(s0: Store, s1: Store, n1: nat, s2: Store, k: Key, t: nat, vlan: int, add: bool, info: VlanInfo)
      requires StoreValid(s0) && StoreValid(s1) && StoreValid(s2)
      requires Discovered(s0, s1, {k}) && SubportNudged(s1, s2, t, k.1, vlan, add, info)
      requires PortsKept(s1, n1, s2) && forall p | p in s1.ports :: p < n1
      requires AnchorsFrom(s0, s1, {AnchorPortName(k.0, k.1)}) && AnchorsFrom(s1, s2, {})
      ensures Nudged(s0, s2, k.1, vlan, add, info) && s2.networks == s0.networks && PortsSteady(s0, s2)
      ensures AnchorsFrom(s0, s2, {AnchorPortName(k.0, k.1)})
    {
      NudgedGrow(s0, s1, k, k.1, vlan, add, info);
      SubportNudgedIs(s1, s2, t, k.1, vlan, add, info);
      assert forall p | p in s1.ports && p in s2.ports :: s2.ports[p] == s1.ports[p];
      NudgedTrans(s0, s1, s2, k.1, vlan, add, info);
      AnchorsTrans(s0, s1, s2, AnchorPortName(k.0, k.1));
    }

    lemma SteadyGrow(a: Store, b: Store, k: Key)
      requires Discovered(a, b, {k})
      ensures PortsSteady(a, b)
    {
    }

    lemma AnchorsTrans(a: Store, b: Store, c: Store, name: string)
      requires AnchorsFrom(a, b, {name}) && AnchorsFrom(b, c, {})
      ensures AnchorsFrom(a, c, {name})
    {
    }

    lemma TouchedView(s0: Store, s1: Store, s2: Store, k: Key, t: nat, vlan: int, add: bool, info: VlanInfo)
      requires StoreValid(s0) && StoreValid(s1) && StoreValid(s2) && Discovered(s0, s1, {k})
      requires t in s1.trunks && s1.trunks[t].name == TrunkName(k.0, k.1)
      requires SubportNudged(s1, s2, t, k.1, vlan, add, info)
      requires s2.trunks[t].subs.Keys == Changed(s1.trunks[t].subs.Keys, vlan, add)
      ensures View(s2) == Touch(View(s0), {TrunkName(k.0, k.1)}, vlan, add)
    {
      hide View, TrunkName, Discovered, ListedPortsExist, SubportsNotShared, ParentsOwn, AnchorsNamed, NamesUnique,
           Touch, Changed;
      assert HasTrunk(s1, TrunkName(k.0, k.1));
      ViewGrown(s0, s1, k);
      ViewAt(s1, t);
      ViewChanged(s1, s2, t);
      TouchFromSteps(View(s0), View(s1), TrunkName(k.0, k.1), vlan, add);
    }

    lemma TouchFromSteps(v0: map<string, set<int>>, v1: map<string, set<int>>, n: string, vlan: int, add: bool)
      requires v1 == v0 + if n in v0 then map[] else map[n := {}]
      ensures n in v1 && v1[n := Changed(v1[n], vlan, add)] == Touch(v0, {n}, vlan, add)
    {
    }

    /** All chassis with the physical network that the agent looks after. */
    method TouchAll(d: Databases, physnet: string, vlan: int, add: bool, anchorNet: nat, info: VlanInfo)
      returns (raised: bool)
      requires client.Valid() && CacheOk(d) && (add || info == VlanInfo(None, ""))
      modifies client`failures, client`writes, client`ports, client`trunks, client`nextId, client`moves
      ensures client.Valid() && client.failures >= old(client.failures)
      ensures raised ==> client.failures > old(client.failures)
      ensures Nudged(old(client.St()), client.St(), physnet, vlan, add, info)
      ensures client.networks == old(client.networks)
      ensures IsNetwork(old(client.St()), anchorNet, anchorNetwork) ==>
                PortsPlaced(d, PairsOn(d, physnet), anchorNetwork, old(client.St()), client.St())
      ensures InfraOk(old(client.St()), d, Mine(d), anchorNetwork) && NoStrays(old(client.St()), d, Mine(d), physnet)
              && client.failures == old(client.failures) ==>
                View(client.St()) == TargetView(View(old(client.St())), d, Mine(d), physnet, vlan, add)
      ensures LeaksPaid(old(client.St()), old(client.failures), client.St(), client.failures)
    {
      hide PortsPlaced, IsNetwork, PairsOn, Leaks, StoreValid, Available, Nudged, AnchorsFrom, Touch, View,
           Client.Fresh, InfraOk, NoStrays, AnchorPortName, TrunkName, CacheOk, TargetView, TrunksOf, GroupMembers,
           Mine, ChassisWithPhysnet;
      raised := false;
      ghost var s0 := client.St();
      PortsPlacedRefl(d, physnet, s0);
      NudgedRefl(s0, physnet, vlan, add, info);
      TouchNoneOf(d, View(s0), physnet, vlan, add);
      var all := ChassisWithPhysnet(d, physnet);
      var todo := all;
      assert all - todo == {};
      while todo != {}
        invariant LeaksPaid(old(client.St()), old(client.failures), client.St(), client.failures)
        invariant !raised && todo <= all
        invariant client.Valid() && client.nextId >= old(client.nextId) && client.failures >= old(client.failures)
        invariant Nudged(s0, client.St(), physnet, vlan, add, info)
        invariant client.St().networks == s0.networks
        invariant IsNetwork(s0, anchorNet, anchorNetwork) ==>
                    PortsPlaced(d, PairsOn(d, physnet), anchorNetwork, s0, client.St())
        invariant NoStrays(s0, d, Mine(d), physnet) && InfraOk(s0, d, Mine(d), anchorNetwork)
                  && client.failures == old(client.failures) ==>
                    && NoStrays(client.St(), d, Mine(d), physnet)
                    && View(client.St()) == Touch(View(s0), TrunksOf(d, all - todo, physnet), vlan, add)
        decreases todo
      {
        var c := Pick(todo);
        ghost var s1, done := client.St(), all - todo;
        todo := todo - {c};
        assert all - todo == done + {c};
        ClientFresh(client);
        ManagedChassis(d, physnet, c);
        if ShouldManage(c) {
          raised := TouchChassis(d, c, physnet, vlan, add, anchorNet, info);
          ClientFresh(client);
          PlacedMore(d, physnet, c, s0, s1, client.St(), anchorNet);
          TouchOneNudge(s0, s1, client.St(), physnet, vlan, add, info);
          TouchOne(d, s0, s1, client.St(), physnet, c, vlan, add, done, client.failures == old(client.failures));
          if raised { return; }
        } else {
          TouchSkipped(d, done, c, physnet);
        }
      }
      assert all - todo == all;
      TouchedAll(d, View(s0), physnet, vlan, add);
    }

    /** The agent's chassis with the physical network. */
    function PairsOn(d: Databases, physnet: string): set<Key> {
      set c | c in ChassisWithPhysnet(d, physnet) && c in Mine(d) :: (c, physnet)
    }

    lemma PortsPlacedRefl(d: Databases, physnet: string, s: Store)
      ensures PortsPlaced(d, PairsOn(d, physnet), anchorNetwork, s, s)
    {
    }

    lemma PlacedMore(d: Databases, physnet: string, c: string, s0: Store, s1: Store, s2: Store, net: nat)
      requires c in ChassisWithPhysnet(d, physnet) && c in Mine(d) && s1.networks == s0.networks
                 && s2.networks == s1.networks
      ensures IsNetwork(s0, net, anchorNetwork) && PortsPlaced(d, PairsOn(d, physnet), anchorNetwork, s0, s1)
              && (IsNetwork(s1, net, anchorNetwork) ==> PortsPlaced(d, {(c, physnet)}, anchorNetwork, s1, s2)) ==>
                PortsPlaced(d, PairsOn(d, physnet), anchorNetwork, s0, s2)
    {
      var ks := PairsOn(d, physnet);
      if IsNetwork(s0, net, anchorNetwork) && PortsPlaced(d, ks, anchorNetwork, s0, s1)
         && PortsPlaced(d, {(c, physnet)}, anchorNetwork, s1, s2) {
        PortsPlacedMono(d, {(c, physnet)}, ks, anchorNetwork, s1, s2);
        PortsPlacedTrans(d, ks, anchorNetwork, s0, s1, s2);
      }
    }

    lemma TouchNoneOf(d: Databases, view: map<string, set<int>>, physnet: string, vlan: int, add: bool)
      ensures Touch(view, TrunksOf(d, {}, physnet), vlan, add) == view
    {
    }

    lemma ManagedChassis(d: Databases, physnet: string, c: string)
      requires c in ChassisWithPhysnet(d, physnet)
      ensures c in Mine(d) <==> ShouldManage(c)
    {
    }

    lemma TouchSkipped(d: Databases, done: set<string>, c: string, physnet: string)
      requires !ShouldManage(c)
      ensures TrunksOf(d, done + {c}, physnet) == TrunksOf(d, done, physnet)
    {
    }

    lemma TouchedAll(d: Databases, view: map<string, set<int>>, physnet: string, vlan: int, add: bool)
      ensures Touch(view, TrunksOf(d, ChassisWithPhysnet(d, physnet), physnet), vlan, add)
           == TargetView(view, d, Mine(d), physnet, vlan, add)
    {
      var all := ChassisWithPhysnet(d, physnet);
      forall k | k in MyPairs(d, Mine(d)) && k.1 == physnet
        ensures k.0 in all && ShouldManage(k.0) && k.0 in GroupMembers(d)
      {
        PairIsMine(d, k);
      }
      forall c | c in all && ShouldManage(c) && c in GroupMembers(d) ensures (c, physnet) in MyPairs(d, Mine(d)) {
      }
      assert TrunksOf(d, all, physnet) == TrunksOn(d, Mine(d), physnet);
    }

    lemma TouchOneNudge(s0: Store, s1: Store, s2: Store, physnet: string, vlan: int, add: bool, info: VlanInfo)
      requires Nudged(s0, s1, physnet, vlan, add, info) && Nudged(s1, s2, physnet, vlan, add, info)
      requires StoreValid(s2) && PortsSteady(s1, s2)
      ensures Nudged(s0, s2, physnet, vlan, add, info)
    {
      NudgedTrans(s0, s1, s2, physnet, vlan, add, info);
    }

    lemma TouchOne(d: Databases, s0: Store, s1: Store, s2: Store, physnet: string, c: string, vlan: int, add: bool,
                   done: set<string>, clean: bool)
      requires c in Mine(d) && c in ChassisWithPhysnet(d, physnet) && s1.networks == s0.networks
      requires AnchorsFrom(s1, s2, {AnchorPortName(c, physnet)})
      requires clean && !Available(s1, d, (c, physnet)) ==> s2.ports == s1.ports && s2.trunks == s1.trunks
      requires clean && Available(s1, d, (c, physnet)) ==>
                 View(s2) == Touch(View(s1), {TrunkName(c, physnet)}, vlan, add)
      ensures clean && InfraOk(s0, d, Mine(d), anchorNetwork) && NoStrays(s1, d, Mine(d), physnet)
              && View(s1) == Touch(View(s0), TrunksOf(d, done, physnet), vlan, add) ==>
                && NoStrays(s2, d, Mine(d), physnet)
                && View(s2) == Touch(View(s0), TrunksOf(d, done + {c}, physnet), vlan, add)
    {
      hide Touch, View, TrunkName;
      if clean && InfraOk(s0, d, Mine(d), anchorNetwork) && NoStrays(s1, d, Mine(d), physnet)
         && View(s1) == Touch(View(s0), TrunksOf(d, done, physnet), vlan, add) {
        var k := (c, physnet);
        if c in GroupMembers(d) {
          assert k in MyPairs(d, Mine(d));
          assert InfraOk(s1, d, Mine(d), anchorNetwork);
          PairAvailable(d, Mine(d), s1, k);
          assert TrunksOf(d, done + {c}, physnet) == TrunksOf(d, done, physnet) + {TrunkName(c, physnet)};
          TouchMore(View(s0), TrunksOf(d, done, physnet), TrunkName(c, physnet), vlan, add);
          StraysStayAway(d, s1, s2, physnet, c);
        } else {
          assert !GroupNetworkFor(s1, d, c);
          assert s2.ports == s1.ports && s2.trunks == s1.trunks;
          SameView(s1, s2);
          assert TrunksOf(d, done + {c}, physnet) == TrunksOf(d, done, physnet);
        }
      }
    }

    lemma SameView(a: Store, b: Store)
      requires a.trunks == b.trunks
      ensures View(a) == View(b)
    {
    }

    lemma StraysStayAway(d: Databases, a: Store, b: Store, physnet: string, c: string)
      requires NoStrays(a, d, Mine(d), physnet) && AnchorsFrom(a, b, {AnchorPortName(c, physnet)})
      requires c in GroupMembers(d)
      ensures NoStrays(b, d, Mine(d), physnet)
    {
      forall c' | c' in ChassisWithPhysnet(d, physnet) && c' in Mine(d) && c' !in GroupMembers(d)
        ensures !HasPort(b, AnchorPortName(c', physnet))
      {
        AnchorNameOf(c, c', physnet);
        assert StartsWith(AnchorPortName(c', physnet), ANCHOR_PREFIX);
      }
    }

    /** One event: VLAN `vlan` of the network appeared on, or left, the physical
        network. Whatever calls raise, the cache is cleared and no trunk changes by
        more than that VLAN. When nothing raises the view is the specified one; an
        add whose segment is gone touches no trunk. */
    method ReconcileSingleVlan(networkId: string, physnet: string, vlan: int, add: bool) returns (info: VlanInfo)
      requires client.Valid()
      modifies this`cache, client`failures, client`listFailures, client`writes, client`networks, client`ports,
               client`trunks, client`nextId, client`moves
      ensures client.Valid() && cache.None? && client.failures >= old(client.failures)
      ensures db.None? ==> client.St() == old(client.St()) && client.writes == old(client.writes)
      ensures Nudged(old(client.St()), client.St(), physnet, vlan, add, info)
      ensures db.Some? ==> NewNetworks(db.value, old(client.St()), client.St())
      ensures db.Some? ==> PortsPlaced(db.value, PairsOn(db.value, physnet), anchorNetwork, old(client.St()),
                client.St())
      ensures EventInfo(networkId, physnet, vlan, info, client.failures == old(client.failures))
      ensures add && !SegmentListed(client.segments, networkId, physnet, vlan) ==>
                client.ports == old(client.ports) && client.trunks == old(client.trunks)
      ensures client.failures == old(client.failures) && old(Targetable(networkId, physnet, vlan, add)) ==>
                View(client.St()) == TargetView(View(old(client.St())), db.value, Mine(db.value), physnet, vlan, add)
      ensures LeaksPaid(old(client.St()), old(client.failures), client.St(), client.failures)
    {
      hide Leaks;
      cache, info := None, VlanInfo(None, "");
      NudgedRefl(client.St(), physnet, vlan, add, info);
      if db.None? { return; }
      var m := BuildChassisCache(db.value);
      cache := Some(m);
      info := RunTargeted(db.value, networkId, physnet, vlan, add);
      cache := None;
    }

    /** What the subport made for an event carries. */
    ghost predicate EventInfo(networkId: string, physnet: string, vlan: int, info: VlanInfo, clean: bool)
      reads client`segments
    {
      info.segmentId != "" ==>
        && (exists s :: s in client.segments && SegmentMatches(s, networkId, physnet, vlan) && s.id == info.segmentId)
        && (clean ==> info.vni == LastVni(client.segments, networkId))
    }

    /** The event can be served: no stray anchor ports, and an add finds its segment. */
    ghost predicate Targetable(networkId: string, physnet: string, vlan: int, add: bool)
      reads this`db, client`networks, client`ports, client`trunks, client`segments
    {
      && db.Some? && autoCreate && NoStrays(client.St(), db.value, Mine(db.value), physnet)
      && (add ==> SegmentListed(client.segments, networkId, physnet, vlan) && SegmentIds(client.segments))
    }

    method RunTargeted(d: Databases, networkId: string, physnet: string, vlan: int, add: bool) returns (info: VlanInfo)
      requires client.Valid() && db == Some(d) && CacheOk(d)
      modifies client`failures, client`listFailures, client`writes, client`networks, client`ports, client`trunks,
               client`nextId, client`moves
      ensures client.Valid() && client.failures >= old(client.failures)
      ensures Nudged(old(client.St()), client.St(), physnet, vlan, add, info)
      ensures NewNetworks(d, old(client.St()), client.St())
      ensures PortsPlaced(d, PairsOn(d, physnet), anchorNetwork, old(client.St()), client.St())
      ensures EventInfo(networkId, physnet, vlan, info, client.failures == old(client.failures))
      ensures add && !SegmentListed(client.segments, networkId, physnet, vlan) ==>
                client.ports == old(client.ports) && client.trunks == old(client.trunks)
      ensures client.failures == old(client.failures) && old(Targetable(networkId, physnet, vlan, add)) ==>
                View(client.St()) == TargetView(View(old(client.St())), d, Mine(d), physnet, vlan, add)
      ensures LeaksPaid(old(client.St()), old(client.failures), client.St(), client.failures)
    {
      hide PortsPlaced, NetworksGrow, InfraNames, NewNetworks, PairsOn, Leaks, StoreValid, Nudged, View, TargetView,
           NoStrays, InfraOk, Client.Fresh, CacheOk, SegmentIds, LastVni, SegmentMatches, HasNetwork;
      info := VlanInfo(None, "");
      ghost var s0 := client.St();
      NudgedRefl(s0, physnet, vlan, add, info);
      var raised := EnsureInfrastructure(d);
      ghost var s1 := client.St();
      OnlyInfra(d, physnet, s0, s1);
      OnlyNetworks(d, physnet, vlan, add, s0, s1);
      if raised { return; }
      var net: Option<nat>;
      raised, net := client.FindNetwork(anchorNetwork);
      if raised || net.None? { NoAnchorNetwork(d, s1); return; }
      if add {
        var vni, segmentId := GetVniAndSegment(networkId, physnet, vlan);
        if segmentId == "" { return; }
        info := VlanInfo(vni, segmentId);
        NudgedRefl(s0, physnet, vlan, add, info);
        OnlyNetworks(d, physnet, vlan, add, s0, s1);
      }
      raised := TouchAll(d, physnet, vlan, add, net.value, info);
      PlacedAfterNetworks(d, physnet, s0, s1, client.St());
      NudgedAfterNetworks(s0, s1, client.St(), physnet, vlan, add, info);
    }

    lemma OnlyInfra(d: Databases, physnet: string, s0: Store, s1: Store)
      requires NetworksGrow(s0, s1, InfraNames(d, Mine(d), anchorNetwork)) && s1.ports == s0.ports
      ensures forall n | n in s0.networks :: n in s1.networks && s1.networks[n] == s0.networks[n]
      ensures NewNetworks(d, s0, s1) && PortsPlaced(d, PairsOn(d, physnet), anchorNetwork, s0, s1)
    {
    }

    lemma PlacedAfterNetworks(d: Databases, physnet: string, s0: Store, s1: Store, s2: Store)
      requires NewNetworks(d, s0, s1) && s1.ports == s0.ports && s2.networks == s1.networks
      requires PortsPlaced(d, PairsOn(d, physnet), anchorNetwork, s1, s2)
      ensures NewNetworks(d, s0, s2) && PortsPlaced(d, PairsOn(d, physnet), anchorNetwork, s0, s2)
    {
    }

    lemma OnlyNetworks(d: Databases, physnet: string, vlan: int, add: bool, s0: Store, s1: Store)
      requires s1.ports == s0.ports && s1.trunks == s0.trunks
      requires forall n | n in s0.networks :: n in s1.networks && s1.networks[n] == s0.networks[n]
      ensures forall info :: Nudged(s0, s1, physnet, vlan, add, info)
      ensures NoStrays(s0, d, Mine(d), physnet) ==> NoStrays(s1, d, Mine(d), physnet)
      ensures View(s1) == View(s0)
    {
    }

    lemma NoAnchorNetwork(d: Databases, s: Store)
      ensures InfraOk(s, d, Mine(d), anchorNetwork) ==> HasNetwork(s, anchorNetwork)
    {
    }

    lemma NudgedAfterNetworks(s0: Store, s1: Store, s2: Store, physnet: string, vlan: int, add: bool, info: VlanInfo)
      requires s1.ports == s0.ports && s1.trunks == s0.trunks
      requires forall n | n in s0.networks :: n in s1.networks && s1.networks[n] == s0.networks[n]
      requires Nudged(s1, s2, physnet, vlan, add, info)
      ensures Nudged(s0, s2, physnet, vlan, add, info)
    {
    }
  }

  function Shares(managers: seq<Manager>, d: Databases): (r: seq<set<string>>)
    ensures |r| == |managers| && forall i | 0 <= i < |r| :: r[i] == managers[i].Mine(d)
  {
    seq(|managers|, i requires 0 <= i < |managers| => managers[i].Mine(d))
  }

  /** What every manager needs for its pass to count: the same databases, and a
      configuration it can serve. */
  ghost predicate Ready(managers: seq<Manager>, client: Client, d: Databases)
    reads managers, client`segments
  {
    && DashFree(d) && SegmentIds(client.segments)
    && forall i | 0 <= i < |managers| ::
         && managers[i].client == client && managers[i].db == Some(d) && managers[i].autoCreate
         && !StartsWith(managers[i].anchorNetwork, GROUP_PREFIX)
  }

  /** The periodic passes of several agents over the same Neutron and OVN, one after the other
      in any order. When no call raises the outcome is that of one pass by one agent with
      all their shares; where every chassis has some agent, of one that looks after all. */
  method ReconcileAll(managers: seq<Manager>, client: Client, d: Databases)
    requires client.Valid() && Ready(managers, client, d)
    modifies managers, client`failures, client`listFailures, client`writes, client`networks, client`ports,
             client`trunks, client`nextId, client`moves
    ensures client.Valid() && client.failures >= old(client.failures) && Ready(managers, client, d)
    ensures client.failures == old(client.failures) && managers != [] ==>
              View(client.St()) == PassView(View(old(client.St())), d, client.segments, Union(Shares(managers, d)))
    ensures client.failures == old(client.failures) && managers != []
            && (forall c | c in d.chassis :: exists i :: 0 <= i < |managers| && c.name in managers[i].Mine(d)) ==>
              View(client.St())
              == PassView(View(old(client.St())), d, client.segments, set c | c in d.chassis :: c.name)
    ensures LeaksPaid(old(client.St()), old(client.failures), client.St(), client.failures)
  {
    hide PassView, View, Converged, PassBounded, Leaks, StoreValid, Client.Fresh, DashFree, StartsWith;
    ghost var shares := Shares(managers, d);
    for i := 0 to |managers|
      invariant client.Valid() && client.failures >= old(client.failures) && Ready(managers, client, d)
      invariant client.failures == old(client.failures) ==>
                  View(client.St()) == RunAgents(View(old(client.St())), d, client.segments, shares[..i])
      invariant LeaksPaid(old(client.St()), old(client.failures), client.St(), client.failures)
    {
      assert shares[..i + 1][..i] == shares[..i] && shares[..i + 1][i] == managers[i].Mine(d);
      managers[i].Reconcile();
    }
    assert shares[..|managers|] == shares;
    if managers != [] {
      RunAgentsIsOnePass(View(old(client.St())), d, client.segments, shares);
      if forall c | c in d.chassis :: exists i :: 0 <= i < |managers| && c.name in managers[i].Mine(d) {
        SharesOfAll(managers, d);
      }
    }
  }

  lemma SharesOfAll(managers: seq<Manager>, d: Databases)
    requires forall c | c in d.chassis :: exists i :: 0 <= i < |managers| && c.name in managers[i].Mine(d)
    ensures Union(Shares(managers, d)) == set c | c in d.chassis :: c.name
  {
  }
}
