/** Neutron as the agent sees it: networks, ports and trunks behind calls that
    may raise. A call that raises has had no effect. The store does not check
    what callers attach or delete: that the listed ports exist is up to the
    order in which the agent works. */
module Neutron {
  import opened Wrappers
  import opened Names
  import opened Ovn

  datatype Owner = AnchorOwner | SubportOwner | OtherOwner

  /** The binding profile keys the agent reads and writes. */
  datatype Profile = Profile(
    systemId: string, physnet: string, segmentId: string, vni: Option<int>, links: seq<string>)

  datatype Port = Port(name: string, networkId: nat, owner: Owner, profile: Profile)

  /** `subs` maps the segmentation id of each subport to its port. */
  datatype Trunk = Trunk(name: string, parent: nat, subs: map<int, nat>)

  datatype Store = Store(networks: map<nat, string>, ports: map<nat, Port>, trunks: map<nat, Trunk>)

  // ----- Store invariant --------------------------------------------------

  predicate ListedPortsExist(s: Store) {
    forall t, v | t in s.trunks && v in s.trunks[t].subs :: s.trunks[t].subs[v] in s.ports
  }

  predicate SubportsNotShared(s: Store) {
    forall t, v, t', v' | t in s.trunks && v in s.trunks[t].subs && t' in s.trunks && v' in s.trunks[t'].subs
      :: s.trunks[t].subs[v] == s.trunks[t'].subs[v'] ==> t == t' && v == v'
  }

  predicate ParentsOwn(s: Store) {
    && (forall t | t in s.trunks :: s.trunks[t].parent in s.ports)
    && (forall t, t' | t in s.trunks && t' in s.trunks :: s.trunks[t].parent == s.trunks[t'].parent ==> t == t')
    && (forall t, t', v | t in s.trunks && t' in s.trunks && v in s.trunks[t'].subs
          :: s.trunks[t'].subs[v] != s.trunks[t].parent)
  }

  predicate NamesUnique(s: Store) {
    && (forall t, t' | t in s.trunks && t' in s.trunks :: s.trunks[t].name == s.trunks[t'].name ==> t == t')
    && (forall p, p' | p in s.ports && p' in s.ports && StartsWith(s.ports[p].name, ANCHOR_PREFIX)
          :: s.ports[p].name == s.ports[p'].name ==> p == p')
  }

  /** The parent of an agent trunk is the anchor port named after the same pair. */
  predicate AnchorsNamed(s: Store) {
    forall t | t in s.trunks && StartsWith(s.trunks[t].name, TRUNK_PREFIX) && s.trunks[t].parent in s.ports
      :: s.ports[s.trunks[t].parent].name == ANCHOR_PREFIX + s.trunks[t].name[|TRUNK_PREFIX|..]
  }

  predicate StoreValid(s: Store) {
    && ListedPortsExist(s)
    && SubportsNotShared(s)
    && ParentsOwn(s)
    && NamesUnique(s)
    && AnchorsNamed(s)
  }

  // ----- Views ------------------------------------------------------------

  predicate HasNetwork(s: Store, name: string) {
    exists n :: n in s.networks && s.networks[n] == name
  }

  predicate HasPort(s: Store, name: string) {
    exists p :: p in s.ports && s.ports[p].name == name
  }

  predicate HasTrunk(s: Store, name: string) {
    exists t :: t in s.trunks && s.trunks[t].name == name
  }

  function TrunkNames(s: Store): set<string> {
    set t | t in s.trunks :: s.trunks[t].name
  }

  function VlansOf(s: Store, name: string): set<int> {
    set t, v | t in s.trunks && s.trunks[t].name == name && v in s.trunks[t].subs :: v
  }

  /** The observable result of reconciliation: which VLANs each trunk carries. */
  function View(s: Store): map<string, set<int>> {
    map n | n in TrunkNames(s) :: VlansOf(s, n)
  }

  lemma ViewAt(s: Store, t: nat)
    requires NamesUnique(s) && t in s.trunks
    ensures s.trunks[t].name in View(s)
    ensures View(s)[s.trunks[t].name] == s.trunks[t].subs.Keys
  {
    var name := s.trunks[t].name;
    assert forall v :: v in VlansOf(s, name) <==> v in s.trunks[t].subs.Keys;
  }

  // ----- Store updates ----------------------------------------------------

  function Attach(s: Store, t: nat, vlan: int, port: nat): Store
    requires t in s.trunks
  {
    s.(trunks := s.trunks[t := s.trunks[t].(subs := s.trunks[t].subs[vlan := port])])
  }

  function Detach(s: Store, t: nat, port: nat): Store
    requires t in s.trunks
  {
    var tr := s.trunks[t];
    s.(trunks := s.trunks[t := tr.(subs := map v | v in tr.subs && tr.subs[v] != port :: tr.subs[v])])
  }

  lemma AttachValid(s: Store, t: nat, vlan: int, port: nat)
    requires StoreValid(s) && t in s.trunks && vlan !in s.trunks[t].subs && port in s.ports && !InUse(s, port)
    ensures StoreValid(Attach(s, t, vlan, port))
  {
    AttachNotShared(s, t, vlan, port);
    AttachParents(s, t, vlan, port);
    AttachNames(s, t, vlan, port);
  }

  lemma AttachParents(s: Store, t: nat, vlan: int, port: nat)
    requires ParentsOwn(s) && ListedPortsExist(s) && t in s.trunks && port in s.ports
    requires forall t' | t' in s.trunks :: s.trunks[t'].parent != port
    ensures ParentsOwn(Attach(s, t, vlan, port)) && ListedPortsExist(Attach(s, t, vlan, port))
  {
  }

  lemma AttachNames(s: Store, t: nat, vlan: int, port: nat)
    requires NamesUnique(s) && AnchorsNamed(s) && t in s.trunks
    ensures NamesUnique(Attach(s, t, vlan, port)) && AnchorsNamed(Attach(s, t, vlan, port))
  {
  }

  lemma AttachNotShared(s: Store, t: nat, vlan: int, port: nat)
    requires SubportsNotShared(s) && t in s.trunks && vlan !in s.trunks[t].subs
    requires forall t', v | t' in s.trunks && v in s.trunks[t'].subs :: s.trunks[t'].subs[v] != port
    ensures SubportsNotShared(Attach(s, t, vlan, port))
  {
  }

  lemma DetachValid(s: Store, t: nat, port: nat)
    requires StoreValid(s) && t in s.trunks
    ensures StoreValid(Detach(s, t, port))
  {
  }

  /** A listed port is free once it is detached. */
  lemma DetachFrees(s: Store, t: nat, v: int)
    requires StoreValid(s) && t in s.trunks && v in s.trunks[t].subs
    ensures !InUse(Detach(s, t, s.trunks[t].subs[v]), s.trunks[t].subs[v])
    ensures Detach(s, t, s.trunks[t].subs[v]).trunks[t].subs == s.trunks[t].subs - {v}
  {
    var port := s.trunks[t].subs[v];
    var s' := Detach(s, t, port);
    forall t', v' | t' in s'.trunks && v' in s'.trunks[t'].subs
      ensures s'.trunks[t'].subs[v'] != port
    {
      assert v' in s.trunks[t'].subs && s'.trunks[t'].subs[v'] == s.trunks[t'].subs[v'];
    }
    forall t' | t' in s'.trunks
      ensures s'.trunks[t'].parent != port
    {
      assert s'.trunks[t'].parent == s.trunks[t'].parent;
    }
    DetachOne(s, t, v);
  }

  lemma DetachOne(s: Store, t: nat, v: int)
    requires SubportsNotShared(s) && t in s.trunks && v in s.trunks[t].subs
    ensures Detach(s, t, s.trunks[t].subs[v]).trunks[t].subs == s.trunks[t].subs - {v}
  {
    var subs := s.trunks[t].subs;
    forall v' | v' in subs
      ensures subs[v'] != subs[v] <==> v' != v
    {
      assert s.trunks[t].subs[v'] == s.trunks[t].subs[v] ==> v' == v;
    }
  }

  predicate InUse(s: Store, port: nat) {
    || (exists t :: t in s.trunks && s.trunks[t].parent == port)
    || (exists t, v :: t in s.trunks && v in s.trunks[t].subs && s.trunks[t].subs[v] == port)
  }

  lemma DropPortValid(s: Store, port: nat)
    requires StoreValid(s) && !InUse(s, port)
    ensures StoreValid(s.(ports := s.ports - {port}))
  {
  }

  /** Nothing in a valid store depends on its networks. */
  lemma NetworksValid(s: Store, networks: map<nat, string>)
    requires StoreValid(s)
    ensures StoreValid(s.(networks := networks))
  {
  }

  lemma PortLinksValid(s: Store, id: nat, links: seq<string>)
    requires StoreValid(s) && id in s.ports
    ensures StoreValid(s.(ports := s.ports[id := s.ports[id].(profile := s.ports[id].profile.(links := links))]))
  {
  }

  lemma NewPortValid(s: Store, id: nat, p: Port)
    requires StoreValid(s) && id !in s.ports
    requires StartsWith(p.name, ANCHOR_PREFIX) ==> !HasPort(s, p.name)
    ensures StoreValid(s.(ports := s.ports[id := p]))
    ensures !InUse(s.(ports := s.ports[id := p]), id)
  {
  }

  lemma NewTrunkValid(s: Store, id: nat, name: string, parent: nat)
    requires StoreValid(s) && id !in s.trunks && !HasTrunk(s, name)
    requires parent in s.ports && !InUse(s, parent)
    requires StartsWith(name, TRUNK_PREFIX) ==> s.ports[parent].name == ANCHOR_PREFIX + name[|TRUNK_PREFIX|..]
    ensures StoreValid(s.(trunks := s.trunks[id := Trunk(name, parent, map[])]))
  {
  }

  lemma DropTrunkValid(s: Store, t: nat)
    requires StoreValid(s) && t in s.trunks
    ensures StoreValid(s.(trunks := s.trunks - {t}))
    ensures !InUse(s.(trunks := s.trunks - {t}), s.trunks[t].parent)
  {
  }

  // ----- Leaked subports --------------------------------------------------

  predicate Listed(s: Store, port: nat) {
    exists t, v :: t in s.trunks && v in s.trunks[t].subs && s.trunks[t].subs[v] == port
  }

  /** Subport ports that no trunk lists: nobody will ever delete them. */
  function Leaks(s: Store): set<nat> {
    set p | p in s.ports && s.ports[p].owner == SubportOwner && !Listed(s, p)
  }

  /** Every new leak is accounted for by a failed call. */
  predicate LeaksPaid(a: Store, fa: nat, b: Store, fb: nat) {
    |Leaks(b)| + fa <= |Leaks(a)| + fb
  }

  lemma SubsetCard(a: set<nat>, b: set<nat>)
    requires a <= b
    ensures |a| <= |b|
  {
    assert b == a + (b - a);
  }

  /** Other ports came or changed, the listed ones stay listed. */
  lemma LeaksSame(a: Store, b: Store)
    requires forall p | p in b.ports && b.ports[p].owner == SubportOwner ::
               p in a.ports && a.ports[p].owner == SubportOwner
    requires forall t | t in a.trunks :: t in b.trunks && b.trunks[t].subs == a.trunks[t].subs
    ensures Leaks(b) <= Leaks(a) && |Leaks(b)| <= |Leaks(a)|
  {
    forall p | Listed(a, p) ensures Listed(b, p) {
      var t, v :| t in a.trunks && v in a.trunks[t].subs && a.trunks[t].subs[v] == p;
      assert t in b.trunks && v in b.trunks[t].subs;
    }
    SubsetCard(Leaks(b), Leaks(a));
  }

  /** A new port is a leak until it is attached. */
  lemma LeaksCreate(s: Store, id: nat, p: Port)
    requires id !in s.ports
    ensures Leaks(s.(ports := s.ports[id := p])) <= Leaks(s) + {id}
    ensures |Leaks(s.(ports := s.ports[id := p]))| <= |Leaks(s)| + 1
  {
    var s' := s.(ports := s.ports[id := p]);
    assert forall q :: Listed(s', q) <==> Listed(s, q);
    SubsetCard(Leaks(s'), Leaks(s) + {id});
  }

  lemma LeaksAttach(s0: Store, s: Store, t: nat, vlan: int, port: nat)
    requires t in s.trunks && vlan !in s.trunks[t].subs && Leaks(s) <= Leaks(s0) + {port}
    ensures |Leaks(Attach(s, t, vlan, port))| <= |Leaks(s0)|
  {
    var s' := Attach(s, t, vlan, port);
    assert s'.trunks[t].subs[vlan] == port;
    forall q | Listed(s, q) ensures Listed(s', q) {
      var t', v :| t' in s.trunks && v in s.trunks[t'].subs && s.trunks[t'].subs[v] == q;
      assert t' in s'.trunks && v in s'.trunks[t'].subs && s'.trunks[t'].subs[v] == q;
    }
    assert Listed(s', port);
    forall q | q in Leaks(s') ensures q in Leaks(s0) {
      assert q in Leaks(s) && q != port;
    }
    SubsetCard(Leaks(s'), Leaks(s0));
  }

  /** A detached port is a leak until it is deleted. */
  lemma LeaksDetach(s: Store, t: nat, port: nat)
    requires t in s.trunks
    ensures Leaks(Detach(s, t, port)) <= Leaks(s) + {port}
    ensures |Leaks(Detach(s, t, port))| <= |Leaks(s)| + 1
  {
    var s' := Detach(s, t, port);
    forall q | Listed(s, q) && q != port ensures Listed(s', q) {
      var t', v :| t' in s.trunks && v in s.trunks[t'].subs && s.trunks[t'].subs[v] == q;
      assert t' in s'.trunks && v in s'.trunks[t'].subs && s'.trunks[t'].subs[v] == q;
    }
    SubsetCard(Leaks(s'), Leaks(s) + {port});
  }

  lemma LeaksRemove(s: Store, t: nat, port: nat)
    requires t in s.trunks
    ensures |Leaks(Detach(s, t, port).(ports := s.ports - {port}))| <= |Leaks(s)|
  {
    LeaksDetach(s, t, port);
    LeaksDelete(Detach(s, t, port), port);
    SubsetCard(Leaks(Detach(s, t, port).(ports := s.ports - {port})), Leaks(s));
  }

  lemma LeaksDelete(s: Store, port: nat)
    ensures Leaks(s.(ports := s.ports - {port})) == Leaks(s) - {port}
    ensures |Leaks(s.(ports := s.ports - {port}))| <= |Leaks(s)|
  {
  }

  /** Deleting a trunk leaves what it still listed. */
  lemma LeaksDropTrunk(s: Store, t: nat)
    requires t in s.trunks
    ensures |Leaks(s.(trunks := s.trunks - {t}))| <= |Leaks(s)| + |s.trunks[t].subs|
  {
    var s' := s.(trunks := s.trunks - {t});
    var freed := set v | v in s.trunks[t].subs :: s.trunks[t].subs[v];
    forall q | Listed(s, q) && q !in freed ensures Listed(s', q) {
      var t', v :| t' in s.trunks && v in s.trunks[t'].subs && s.trunks[t'].subs[v] == q;
      assert t' in s'.trunks && v in s'.trunks[t'].subs;
    }
    SubsetCard(Leaks(s'), Leaks(s) + freed);
    ValuesCard(s.trunks[t].subs);
  }

  lemma {:induction false} ValuesCard(m: map<int, nat>)
    ensures |set v | v in m :: m[v]| <= |m|
    decreases |m|
  {
    if m != map[] {
      assert m.Keys != {};
      var v := SomeOf(m.Keys);
      var rest := m - {v};
      ValuesCard(rest);
      ValuesWithout(m, v);
      assert |m| == |rest| + 1 by { assert m == rest[v := m[v]]; }
    }
  }

  lemma ValuesWithout(m: map<int, nat>, v: int)
    requires v in m
    ensures (set w | w in m :: m[w]) == (set w | w in m - {v} :: (m - {v})[w]) + {m[v]}
  {
    var rest := m - {v};
    var a, b := set w | w in m :: m[w], set w | w in rest :: rest[w];
    forall x | x in a ensures x in b + {m[v]} {
      var w :| w in m && m[w] == x;
      if w != v { assert w in rest && rest[w] == x; }
    }
    forall x | x in b ensures x in a {
      var w :| w in rest && rest[w] == x;
      assert w in m && m[w] == x;
    }
  }

  // ----- The client -------------------------------------------------------

  /** `failures` counts the calls that raised, `listFailures` those of them that listed
      segments, `writes` the writes asked for and `moves` the subports attached or detached. */
  class Client {
    var networks: map<nat, string>
    var ports: map<nat, Port>
    var trunks: map<nat, Trunk>
    var segments: seq<Segment>
    var nextId: nat
    var failures: nat
    var listFailures: nat
    var writes: nat
    var moves: nat

    ghost function St(): Store
      reads this`networks, this`ports, this`trunks
    {
      Store(networks, ports, trunks)
    }

    ghost predicate Fresh()
      reads this`networks, this`ports, this`trunks, this`nextId
    {
      && (forall n | n in networks :: n < nextId)
      && (forall p | p in ports :: p < nextId)
      && (forall t | t in trunks :: t < nextId)
    }

    ghost predicate Valid()
      reads this`networks, this`ports, this`trunks, this`nextId
    {
      Fresh() && StoreValid(St())
    }

    constructor ()
      ensures Valid() && failures == 0 && listFailures == 0 && writes == 0
    {
      networks, ports, trunks, segments := map[], map[], map[], [];
      nextId, failures, listFailures, writes, moves := 0, 0, 0, 0, 0;
    }

    /** Any call may raise. */
    method Call() returns (raised: bool)
      modifies this`failures
      ensures failures == old(failures) + if raised then 1 else 0
    {
      raised := *;
      if raised { failures := failures + 1; }
    }

    /** A read that raised, or an id with that name, or none. */
    method FindNetwork(name: string) returns (raised: bool, id: Option<nat>)
      modifies this`failures
      ensures failures == old(failures) + if raised then 1 else 0
      ensures !raised && id.Some? ==> id.value in networks && networks[id.value] == name
      ensures !raised && id.None? ==> !HasNetwork(St(), name)
    {
      raised := Call();
      if n :| n in networks && networks[n] == name {
        id := Some(n);
      } else {
        id := None;
      }
    }

    method FindPort(name: string) returns (raised: bool, id: Option<nat>)
      modifies this`failures
      ensures failures == old(failures) + if raised then 1 else 0
      ensures !raised && id.Some? ==> id.value in ports && ports[id.value].name == name
      ensures !raised && id.None? ==> !HasPort(St(), name)
    {
      raised := Call();
      if p :| p in ports && ports[p].name == name {
        id := Some(p);
      } else {
        id := None;
      }
    }

    method FindTrunk(name: string) returns (raised: bool, id: Option<nat>)
      modifies this`failures
      ensures failures == old(failures) + if raised then 1 else 0
      ensures !raised && id.Some? ==> id.value in trunks && trunks[id.value].name == name
      ensures !raised && id.None? ==> !HasTrunk(St(), name)
    {
      raised := Call();
      if t :| t in trunks && trunks[t].name == name {
        id := Some(t);
      } else {
        id := None;
      }
    }

    /** Listing may stop part-way: a prefix of the segments and a raise. */
    method ListSegments() returns (raised: bool, segs: seq<Segment>)
      modifies this`failures, this`listFailures
      ensures failures == old(failures) + if raised then 1 else 0
      ensures listFailures == old(listFailures) + if raised then 1 else 0
      ensures segs <= segments
      ensures !raised ==> segs == segments
    {
      raised := Call();
      if raised {
        listFailures := listFailures + 1;
        var n: nat :| n <= |segments|;
        segs := segments[..n];
      } else {
        segs := segments;
      }
    }

    method ListTrunks() returns (raised: bool, all: map<nat, Trunk>)
      modifies this`failures
      ensures failures == old(failures) + if raised then 1 else 0
      ensures all == trunks
    {
      raised := Call();
      all := trunks;
    }

    method ListNetworks() returns (raised: bool, all: map<nat, string>)
      modifies this`failures
      ensures failures == old(failures) + if raised then 1 else 0
      ensures all == networks
    {
      raised := Call();
      all := networks;
    }

    method HasAnchorOn(network: nat) returns (raised: bool, any: bool)
      modifies this`failures
      ensures failures == old(failures) + if raised then 1 else 0
      ensures any <==> exists p :: p in ports && ports[p].networkId == network && ports[p].owner == AnchorOwner
    {
      raised := Call();
      any := exists p :: p in ports && ports[p].networkId == network && ports[p].owner == AnchorOwner;
    }

    method CreateNetwork(name: string) returns (raised: bool, id: nat)
      requires Valid()
      modifies this`failures, this`writes, this`networks, this`nextId
      ensures Valid() && nextId >= old(nextId)
      ensures failures == old(failures) + if raised then 1 else 0
      ensures writes == old(writes) + 1
      ensures raised ==> networks == old(networks)
      ensures !raised ==> id !in old(networks) && networks == old(networks)[id := name]
    {
      hide StoreValid;
      writes := writes + 1;
      raised := Call();
      id := nextId;
      if !raised {
        NetworksValid(St(), networks[id := name]);
        networks := networks[id := name];
        nextId := nextId + 1;
      }
    }

    method CreatePort(p: Port) returns (raised: bool, id: nat)
      requires Valid()
      requires StartsWith(p.name, ANCHOR_PREFIX) ==> !HasPort(St(), p.name)
      modifies this`failures, this`writes, this`ports, this`nextId
      ensures Valid() && nextId >= old(nextId)
      ensures failures == old(failures) + if raised then 1 else 0
      ensures writes == old(writes) + 1
      ensures raised ==> ports == old(ports)
      ensures !raised ==> id !in old(ports) && ports == old(ports)[id := p] && !InUse(St(), id)
      ensures id >= old(nextId)
    {
      hide StoreValid, InUse;
      writes := writes + 1;
      raised := Call();
      id := nextId;
      if !raised {
        NewPortValid(St(), id, p);
        ports := ports[id := p];
        nextId := nextId + 1;
      }
    }

    method UpdatePortLinks(id: nat, links: seq<string>) returns (raised: bool)
      requires Valid() && id in ports
      modifies this`failures, this`writes, this`ports
      ensures Valid()
      ensures failures == old(failures) + if raised then 1 else 0
      ensures writes == old(writes) + 1
      ensures raised ==> ports == old(ports)
      ensures !raised ==> ports == old(ports)[id := old(ports)[id].(profile := old(ports)[id].profile.(links := links))]
    {
      hide StoreValid;
      writes := writes + 1;
      raised := Call();
      if !raised {
        PortLinksValid(St(), id, links);
        ports := ports[id := ports[id].(profile := ports[id].profile.(links := links))];
      }
    }

    /** Neutron refuses a parent that already belongs to a trunk. */
    method CreateTrunk(name: string, parent: nat) returns (raised: bool, id: nat)
      requires Valid() && !HasTrunk(St(), name) && parent in ports
      requires StartsWith(name, TRUNK_PREFIX) ==> ports[parent].name == ANCHOR_PREFIX + name[|TRUNK_PREFIX|..]
      modifies this`failures, this`writes, this`trunks, this`nextId
      ensures Valid() && nextId >= old(nextId)
      ensures failures == old(failures) + if raised then 1 else 0
      ensures writes == old(writes) + 1
      ensures raised ==> trunks == old(trunks)
      ensures !raised ==> id !in old(trunks) && trunks == old(trunks)[id := Trunk(name, parent, map[])]
    {
      hide StoreValid;
      writes := writes + 1;
      raised := Call();
      id := nextId;
      if !raised {
        if InUse(Store(networks, ports, trunks), parent) {
          raised, failures := true, failures + 1;
        } else {
          NewTrunkValid(St(), id, name, parent);
          trunks := trunks[id := Trunk(name, parent, map[])];
          nextId := nextId + 1;
        }
      }
    }

    method GetTrunk(id: nat) returns (raised: bool, trunk: Trunk)
      modifies this`failures
      ensures failures == old(failures) + if raised then 1 else 0
      ensures !raised ==> id in trunks && trunk == trunks[id]
    {
      raised := Call();
      trunk := Trunk("", 0, map[]);
      if !raised {
        if id in trunks {
          trunk := trunks[id];
        } else {
          raised, failures := true, failures + 1;
        }
      }
    }

    /** Neutron refuses an unknown trunk and a VLAN the trunk already carries. */
    method AddSubport(t: nat, vlan: int, port: nat) returns (raised: bool)
      modifies this`failures, this`writes, this`trunks, this`moves
      ensures moves == old(moves) + if raised then 0 else 1
      ensures failures == old(failures) + if raised then 1 else 0
      ensures writes == old(writes) + 1
      ensures raised ==> trunks == old(trunks)
      ensures !raised ==> t in old(trunks) && vlan !in old(trunks)[t].subs
                          && St() == Attach(old(St()), t, vlan, port)
    {
      writes := writes + 1;
      raised := Call();
      if !raised {
        if t in trunks && vlan !in trunks[t].subs {
          trunks := trunks[t := trunks[t].(subs := trunks[t].subs[vlan := port])];
          moves := moves + 1;
        } else {
          raised, failures := true, failures + 1;
        }
      }
    }

    method RemoveSubport(t: nat, port: nat) returns (raised: bool)
      modifies this`failures, this`writes, this`trunks, this`moves
      ensures moves == old(moves) + if raised then 0 else 1
      ensures failures == old(failures) + if raised then 1 else 0
      ensures writes == old(writes) + 1
      ensures raised ==> trunks == old(trunks)
      ensures !raised ==> t in old(trunks) && St() == Detach(old(St()), t, port)
    {
      writes := writes + 1;
      raised := Call();
      if !raised {
        if t in trunks {
          var tr := trunks[t];
          trunks := trunks[t := tr.(subs := map v | v in tr.subs && tr.subs[v] != port :: tr.subs[v])];
          moves := moves + 1;
        } else {
          raised, failures := true, failures + 1;
        }
      }
    }

    /** Callers make sure that no trunk uses the port. */
    method DeletePort(id: nat) returns (raised: bool)
      requires Valid() && !InUse(St(), id)
      modifies this`failures, this`writes, this`ports
      ensures Valid()
      ensures failures == old(failures) + if raised then 1 else 0
      ensures writes == old(writes) + 1
      ensures ports == if raised then old(ports) else old(ports) - {id}
    {
      hide StoreValid, InUse;
      writes := writes + 1;
      raised := Call();
      if !raised {
        DropPortValid(St(), id);
        ports := ports - {id};
      }
    }

    method DeleteTrunk(t: nat) returns (raised: bool)
      requires Valid() && t in trunks
      modifies this`failures, this`writes, this`trunks
      ensures Valid()
      ensures failures == old(failures) + if raised then 1 else 0
      ensures writes == old(writes) + 1
      ensures trunks == if raised then old(trunks) else old(trunks) - {t}
    {
      hide StoreValid;
      writes := writes + 1;
      raised := Call();
      if !raised {
        DropTrunkValid(St(), t);
        trunks := trunks - {t};
      }
    }

    method DeleteNetwork(n: nat) returns (raised: bool)
      requires Valid()
      modifies this`failures, this`writes, this`networks
      ensures Valid()
      ensures failures == old(failures) + if raised then 1 else 0
      ensures writes == old(writes) + 1
      ensures networks == if raised then old(networks) else old(networks) - {n}
    {
      hide StoreValid;
      writes := writes + 1;
      raised := Call();
      if !raised {
        NetworksValid(St(), networks - {n});
        networks := networks - {n};
      }
    }
  }
}
