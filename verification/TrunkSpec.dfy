/** What one reconciliation pass is for: which trunks there should be, which
    VLANs they should carry, and what a converged store looks like. `mine` is the
    set of chassis the agent looks after. */
module TrunkSpec {
  import opened Wrappers
  import opened Names
  import opened Ovn
  import opened Neutron

  // ----- Pairs, groups and networks ---------------------------------------

  function MyPairs(db: Databases, mine: set<string>): set<Key> {
    set k | k in ValidPairs(db) && k.0 in mine
  }

  predicate GroupIsMine(g: HaGroup, mine: set<string>) {
    exists m :: m in g.members && m in mine
  }

  predicate InfraOk(s: Store, db: Databases, mine: set<string>, anchorNetwork: string) {
    && HasNetwork(s, anchorNetwork)
    && forall g | g in db.groups && GroupIsMine(g, mine) :: HasNetwork(s, GroupNetworkName(g.name))
  }

  /** An anchor port can be found or made for the pair. */
  predicate GroupNetworkFor(s: Store, db: Databases, systemId: string) {
    exists g :: g in db.groups && systemId in g.members && HasNetwork(s, GroupNetworkName(g.name))
  }

  predicate Available(s: Store, db: Databases, k: Key) {
    HasPort(s, AnchorPortName(k.0, k.1)) || GroupNetworkFor(s, db, k.0)
  }

  /** The anchor port exists and there is nothing left to write to it. */
  predicate AnchorReady(s: Store, k: Key, links: seq<string>) {
    var name := AnchorPortName(k.0, k.1);
    && HasPort(s, name)
    && forall p | p in s.ports && s.ports[p].name == name :: s.ports[p].profile.links != [] || links == []
  }

  // ----- Orphans ----------------------------------------------------------

  predicate Orphan(db: Databases, name: string) {
    ParseTrunkName(name).Some? && ParseTrunkName(name).value !in ValidPairs(db)
  }

  predicate OrphanNetwork(s: Store, db: Databases, n: nat) {
    && n in s.networks
    && ParseGroupNetworkName(s.networks[n]).Some?
    && (forall g | g in db.groups :: g.name != ParseGroupNetworkName(s.networks[n]).value)
    && forall p | p in s.ports && s.ports[p].networkId == n :: s.ports[p].owner != AnchorOwner
  }

  // ----- The effect of a pass on the view ---------------------------------

  /** `name` is the trunk of a valid pair of the agent. */
  predicate Managed(db: Databases, mine: set<string>, name: string) {
    ParseTrunkName(name).Some? && ParseTrunkName(name).value in MyPairs(db, mine)
  }

  function MyTrunks(db: Databases, mine: set<string>): set<string> {
    set k | k in MyPairs(db, mine) :: TrunkName(k.0, k.1)
  }

  /** A fault-free pass: the agent's trunks carry exactly what is required,
      orphans are gone, everything else is as it was. */
  function PassView(view: map<string, set<int>>, db: Databases, segs: seq<Segment>, mine: set<string>)
    : map<string, set<int>>
  {
    map n | n in view.Keys + MyTrunks(db, mine) && !Orphan(db, n) ::
      if Managed(db, mine, n) then RequiredVlans(db, segs, ParseTrunkName(n).value)
      else if n in view then view[n] else {}
  }

  lemma MyTrunksManaged(db: Databases, mine: set<string>, n: string)
    requires DashFree(db)
    ensures n in MyTrunks(db, mine) <==> Managed(db, mine, n)
    ensures Managed(db, mine, n) ==> !Orphan(db, n)
  {
    if n in MyTrunks(db, mine) {
      var k :| k in MyPairs(db, mine) && n == TrunkName(k.0, k.1);
      TrunkNameRoundTrip(k.0, k.1);
    }
    if Managed(db, mine, n) {
      ParsedTrunkName(n);
      var k := ParseTrunkName(n).value;
      assert n == TrunkName(k.0, k.1);
    }
  }

  /** Cleanup by any agent spares the trunk of every valid pair, also of pairs
      other agents look after, when the physical network has no dash. */
  lemma CleanupSparesValidPairs(db: Databases, k: Key)
    requires k in ValidPairs(db) && '-' !in k.1
    ensures !Orphan(db, TrunkName(k.0, k.1))
  {
    TrunkNameRoundTrip(k.0, k.1);
  }

  /** With dashes, the text after the last one is taken for the physical network:
      the trunk of a valid pair is cleaned up exactly when the pair read back is
      not itself valid. */
  lemma DashedPairCleanedUp(db: Databases, systemId: string, front: string, back: string)
    requires (systemId, front + "-" + back) in ValidPairs(db) && '-' !in back
    ensures Orphan(db, TrunkName(systemId, front + "-" + back))
       <==> (systemId + "-" + front, back) !in ValidPairs(db)
  {
    assert TrunkName(systemId, front + "-" + back) == TrunkName(systemId + "-" + front, back);
    TrunkNameRoundTrip(systemId + "-" + front, back);
  }

  /** With a dash, cleanup takes the trunk of a valid pair for an orphan. */
  lemma DashedPhysnetIsCleanedUp()
    ensures exists db, k :: k in ValidPairs(db) && Orphan(db, TrunkName(k.0, k.1))
  {
    var c := Chassis("node", ["a-b"]);
    var g := HaGroup("g", ["node"]);
    var db := Databases([c], [g], map[], map[]);
    assert c in db.chassis && g in db.groups && "node" in g.members;
    assert "node" in GroupMembers(db);
    assert "a-b" in c.physnets;
    assert ("node", "a-b") in ValidPairs(db);
    TrunkNameCollides();
    forall k | k in ValidPairs(db) ensures k != ("node-a", "b") {
      var c', p :| c' in db.chassis && p in c'.physnets && k == (c'.name, p);
    }
    assert Orphan(db, TrunkName("node", "a-b"));
  }

  /** Network cleanup spares the network of every existing group. */
  lemma CleanupSparesGroups(s: Store, db: Databases, g: HaGroup, n: nat)
    requires g in db.groups && n in s.networks && s.networks[n] == GroupNetworkName(g.name)
    ensures !OrphanNetwork(s, db, n)
  {
    GroupNetworkRoundTrip(g.name);
  }

  // ----- Sharding ---------------------------------------------------------

  /** One pass by each listed agent, in that order. */
  function RunAgents(view: map<string, set<int>>, db: Databases, segs: seq<Segment>, agents: seq<set<string>>)
    : map<string, set<int>>
    decreases |agents|
  {
    if agents == [] then view
    else
      var n := |agents| - 1;
      PassView(RunAgents(view, db, segs, agents[..n]), db, segs, agents[n])
  }

  function Union(agents: seq<set<string>>): set<string> {
    set a, c | a in agents && c in a :: c
  }

  lemma UnionSnoc(agents: seq<set<string>>)
    requires agents != []
    ensures Union(agents) == Union(agents[..|agents| - 1]) + agents[|agents| - 1]
  {
  }

  /** However the chassis are split, and in whatever order and however often the
      agents run, the outcome is that of one agent that looks after them all. */
  lemma {:induction false} RunAgentsIsOnePass(
      view: map<string, set<int>>, db: Databases, segs: seq<Segment>, agents: seq<set<string>>)
    requires DashFree(db) && agents != []
    ensures RunAgents(view, db, segs, agents) == PassView(view, db, segs, Union(agents))
  {
    var n := |agents| - 1;
    UnionSnoc(agents);
    if n == 0 {
      assert agents[..n] == [];
      assert RunAgents(view, db, segs, agents[..n]) == view;
      assert Union(agents) == agents[0];
    } else {
      RunAgentsIsOnePass(view, db, segs, agents[..n]);
      PassAfterPass(view, db, segs, Union(agents[..n]), agents[n]);
    }
  }

  lemma PassAfterPass(view: map<string, set<int>>, db: Databases, segs: seq<Segment>, a: set<string>, b: set<string>)
    requires DashFree(db)
    ensures PassView(PassView(view, db, segs, a), db, segs, b) == PassView(view, db, segs, a + b)
  {
    assert MyPairs(db, a + b) == MyPairs(db, a) + MyPairs(db, b);
    hide RequiredVlans, GroupMembers, ValidPairs, DashFree, TrunkName, MyPairs, ParseTrunkName;
    var once := PassView(view, db, segs, a);
    var twice := PassView(once, db, segs, b);
    var both := PassView(view, db, segs, a + b);
    forall n: string
      ensures Managed(db, a + b, n) <==> Managed(db, a, n) || Managed(db, b, n)
      ensures n in once <==> (n in view || Managed(db, a, n)) && !Orphan(db, n)
      ensures n in twice <==> n in both
    {
      MyTrunksManaged(db, a, n);
      MyTrunksManaged(db, b, n);
      MyTrunksManaged(db, a + b, n);
    }
    assert twice.Keys == both.Keys;
  }

  /** A ring that gives every chassis one owner splits the work without overlap. */
  lemma ShardsDisjoint(db: Databases, owner: map<string, string>, a: string, b: string)
    requires a != b
    ensures MyPairs(db, Shard(owner, a)) !! MyPairs(db, Shard(owner, b))
  {
  }

  function Shard(owner: map<string, string>, agent: string): set<string> {
    set c | c in owner && owner[c] == agent
  }

  /** All shards of the ring, each run once in some order, do what one agent does. */
  lemma ShardedIsSingle(view: map<string, set<int>>, db: Databases, segs: seq<Segment>,
                        owner: map<string, string>, agents: seq<string>)
    requires DashFree(db) && agents != []
    requires forall c | c in owner :: owner[c] in agents
    requires forall c | c in db.chassis :: c.name in owner
    ensures RunAgents(view, db, segs, seq(|agents|, i requires 0 <= i < |agents| => Shard(owner, agents[i])))
         == PassView(view, db, segs, set c | c in db.chassis :: c.name)
  {
    hide RequiredVlans, ParseTrunkName, Orphan, GroupMembers, DashFree, RunAgents, TrunkName;
    var shards := seq(|agents|, i requires 0 <= i < |agents| => Shard(owner, agents[i]));
    var all := set c | c in db.chassis :: c.name;
    RunAgentsIsOnePass(view, db, segs, shards);
    forall c | c in owner ensures c in Union(shards) {
      var i :| 0 <= i < |agents| && agents[i] == owner[c];
      assert c in shards[i] && shards[i] in shards;
    }
    forall k | k in ValidPairs(db) ensures k.0 in all && k.0 in Union(shards) {
    }
    assert MyPairs(db, Union(shards)) == MyPairs(db, all);
    assert forall n :: Managed(db, Union(shards), n) <==> Managed(db, all, n);
    assert MyTrunks(db, Union(shards)) == MyTrunks(db, all);
  }

  // ----- Convergence ------------------------------------------------------

  /** Nothing for this agent to do. */
  predicate Converged(s: Store, db: Databases, segs: seq<Segment>, mine: set<string>,
                      anchorNetwork: string, links: Key -> seq<string>) {
    && InfraOk(s, db, mine, anchorNetwork)
    && (forall k | k in MyPairs(db, mine) :: AnchorReady(s, k, links(k)) && HasTrunk(s, TrunkName(k.0, k.1)))
    && (forall t | t in s.trunks && Managed(db, mine, s.trunks[t].name)
          :: s.trunks[t].subs.Keys == RequiredVlans(db, segs, ParseTrunkName(s.trunks[t].name).value))
    && (forall t | t in s.trunks :: !Orphan(db, s.trunks[t].name))
    && (forall n | n in s.networks :: !OrphanNetwork(s, db, n))
  }

  // ----- Fault bounds -----------------------------------------------------

  /** VLAN sets only move towards what is required. */
  predicate Between(before: set<int>, want: set<int>, after: set<int>) {
    before * want <= after <= before + want
  }

  function SymDiff(a: set<int>, b: set<int>): set<int> {
    (a - b) + (b - a)
  }

  lemma BetweenShrinks(before: set<int>, want: set<int>, after: set<int>)
    requires Between(before, want, after)
    ensures SymDiff(after, want) <= SymDiff(before, want)
  {
  }

  /** What a pass, whatever calls raise, may have done to one trunk. */
  predicate TrunkBounded(db: Databases, segs: seq<Segment>, mine: set<string>, before: Trunk, after: Trunk) {
    && after.name == before.name && after.parent == before.parent
    && if Managed(db, mine, before.name)
       then Between(before.subs.Keys, RequiredVlans(db, segs, ParseTrunkName(before.name).value), after.subs.Keys)
       else if Orphan(db, before.name) then after.subs.Keys <= before.subs.Keys
       else after.subs == before.subs
  }
}
