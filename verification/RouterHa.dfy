/** Binding of router interface ports to the HA chassis group of their network: the
    chunked query, the periodic pass and the event. Groups are compared as opaque ids. */
module RouterHa {
  import opened Wrappers

  const CHUNK_SIZE := 100

  datatype Port = Port(id: string, networkId: string)

  /** A row of the group table: the network it belongs to, if any, and its id. */
  datatype GroupRow = GroupRow(networkId: string, group: string)

  function Filter(ports: seq<Port>, networks: set<string>): seq<Port> {
    if ports == [] then []
    else
      var n := |ports| - 1;
      Filter(ports[..n], networks) + if ports[n].networkId in networks then [ports[n]] else []
  }

  function ToSet(s: seq<string>): set<string> {
    set x | x in s
  }

  predicate DistinctIds(s: seq<string>) {
    forall i, j | 0 <= i < j < |s| :: s[i] != s[j]
  }

  /** Networks with a group; of several rows for one network the last counts. */
  function Groups(rows: seq<GroupRow>): map<string, string> {
    if rows == [] then map[]
    else
      var n := |rows| - 1;
      var before := Groups(rows[..n]);
      if rows[n].networkId == "" then before else before[rows[n].networkId := rows[n].group]
  }

  /** What the router ports should carry afterwards: ports of the networks in `groups`
      get that group, all others keep theirs. Ports without a row stay without. */
  function Bound(lrps: map<string, Option<string>>, ports: seq<Port>, groups: map<string, string>)
    : map<string, Option<string>>
  {
    map id | id in lrps :: if Wanted(ports, groups, id).Some? then Wanted(ports, groups, id) else lrps[id]
  }

  /** The group of the port's network; for a port listed twice the last one counts. */
  function Wanted(ports: seq<Port>, groups: map<string, string>, id: string): Option<string> {
    if ports == [] then None
    else
      var n := |ports| - 1;
      if ports[n].id == id && ports[n].networkId in groups then Some(groups[ports[n].networkId])
      else Wanted(ports[..n], groups, id)
  }

  // ----- Chunks and grouping -------------------------------------------------------------

  lemma {:induction false} FilterMember(ports: seq<Port>, networks: set<string>, p: Port)
    ensures p in Filter(ports, networks) <==> p in ports && p.networkId in networks
  {
    if ports != [] {
      var n := |ports| - 1;
      FilterMember(ports[..n], networks, p);
      assert ports == ports[..n] + [ports[n]];
    }
  }

  lemma {:induction false} FilterFilter(ports: seq<Port>, networks: set<string>, n: string)
    ensures Filter(Filter(ports, networks), {n}) == if n in networks then Filter(ports, {n}) else []
  {
    if ports != [] {
      var k := |ports| - 1;
      FilterFilter(ports[..k], networks, n);
      FilterSnoc(Filter(ports[..k], networks), ports[k], {n});
    }
  }

  lemma FilterSnoc(ports: seq<Port>, p: Port, networks: set<string>)
    ensures Filter(ports + [p], networks) == Filter(ports, networks) + if p.networkId in networks then [p] else []
    ensures ports + [] == ports
  {
  }

  /** Grouped by network: each network with ports maps to exactly its ports, in order. */
  ghost predicate GroupedBy(m: map<string, seq<Port>>, ports: seq<Port>) {
    forall n :: (n in m <==> Filter(ports, {n}) != []) && (n in m ==> m[n] == Filter(ports, {n}))
  }

  function AddPort(m: map<string, seq<Port>>, p: Port): map<string, seq<Port>> {
    var m' := if p.networkId in m then m else m[p.networkId := []];
    m'[p.networkId := m'[p.networkId] + [p]]
  }

  lemma GroupedStep(m: map<string, seq<Port>>, ports: seq<Port>, p: Port)
    requires GroupedBy(m, ports)
    ensures GroupedBy(AddPort(m, p), ports + [p])
  {
  }

  lemma {:induction false} FilterConcat(a: seq<Port>, b: seq<Port>, networks: set<string>)
    ensures Filter(a + b, networks) == Filter(a, networks) + Filter(b, networks)
  {
    if b == [] {
      assert a + b == a;
    } else {
      var n := |b| - 1;
      FilterConcat(a, b[..n], networks);
      assert (a + b)[..|a + b| - 1] == a + b[..n];
    }
  }

  /** What the chunks found so far is what one query over their networks finds, network
      by network. */
  ghost predicate SameByNetwork(found: seq<Port>, ports: seq<Port>, networks: set<string>) {
    forall n :: Filter(found, {n}) == if n in networks then Filter(ports, {n}) else []
  }

  lemma ChunkStep(found: seq<Port>, ports: seq<Port>, done: set<string>, chunk: set<string>)
    requires SameByNetwork(found, ports, done) && done !! chunk
    ensures SameByNetwork(found + Filter(ports, chunk), ports, done + chunk)
  {
    forall n ensures Filter(found + Filter(ports, chunk), {n}) == if n in done + chunk then Filter(ports, {n}) else [] {
      FilterConcat(found, Filter(ports, chunk), {n});
      FilterFilter(ports, chunk, n);
    }
  }

  lemma GroupedIsUnchunked(m: map<string, seq<Port>>, found: seq<Port>, ports: seq<Port>, ids: seq<string>)
    requires GroupedBy(m, found) && SameByNetwork(found, ports, ToSet(ids))
    ensures GroupedBy(m, Filter(ports, ToSet(ids)))
  {
    forall n ensures Filter(Filter(ports, ToSet(ids)), {n}) == Filter(found, {n}) {
      FilterFilter(ports, ToSet(ids), n);
    }
  }

  // ----- The binding ----------------------------------------------------------------------

  /** A pass on its own result changes nothing. */
  lemma BoundIdempotent(lrps: map<string, Option<string>>, ports: seq<Port>, groups: map<string, string>)
    ensures Bound(Bound(lrps, ports, groups), ports, groups) == Bound(lrps, ports, groups)
  {
  }

  /** Every found port of a network with a group carries that group. */
  lemma BoundMeans(lrps: map<string, Option<string>>, ports: seq<Port>, groups: map<string, string>, p: Port)
    requires p in ports && p.networkId in groups && p.id in lrps
    requires forall a, b | a in ports && b in ports :: a.id == b.id ==> a == b
    ensures Bound(lrps, ports, groups)[p.id] == Some(groups[p.networkId])
  {
    WantedIs(ports, groups, p);
  }

  lemma {:induction false} WantedIs(ports: seq<Port>, groups: map<string, string>, p: Port)
    requires p in ports && p.networkId in groups
    requires forall a, b | a in ports && b in ports :: a.id == b.id ==> a == b
    ensures Wanted(ports, groups, p.id) == Some(groups[p.networkId])
  {
    var n := |ports| - 1;
    assert ports == ports[..n] + [ports[n]];
    if ports[n] != p {
      assert ports[n].id != p.id;
      WantedIs(ports[..n], groups, p);
    }
  }

  /** Only ports of those networks matter. */
  lemma {:induction false} WantedFiltered(ports: seq<Port>, groups: map<string, string>, id: string)
    ensures Wanted(Filter(ports, groups.Keys), groups, id) == Wanted(ports, groups, id)
  {
    if ports != [] {
      var n := |ports| - 1;
      WantedFiltered(ports[..n], groups, id);
      var f := Filter(ports[..n], groups.Keys);
      if ports[n].networkId in groups {
        assert (f + [ports[n]])[..|f|] == f;
      } else {
        assert f + [] == f;
      }
    }
  }

  /** Binding on the event of one network is the periodic pass restricted to it. */
  lemma EventIsRestriction(lrps: map<string, Option<string>>, ports: seq<Port>, groups: map<string, string>, n: string)
    requires n in groups
    requires forall a, b | a in ports && b in ports :: a.id == b.id ==> a == b
    ensures var event := Bound(lrps, Filter(ports, {n}), map[n := groups[n]]);
            forall id | id in lrps ::
              event[id] == if exists p :: p in ports && p.id == id && p.networkId == n
                           then Bound(lrps, ports, groups)[id] else lrps[id]
  {
    var one := map[n := groups[n]];
    forall id | id in lrps
      ensures Bound(lrps, Filter(ports, {n}), one)[id]
           == if exists p :: p in ports && p.id == id && p.networkId == n then Bound(lrps, ports, groups)[id]
               else lrps[id]
    {
      assert one.Keys == {n};
      WantedFiltered(ports, one, id);
      if p :| p in ports && p.id == id && p.networkId == n {
        WantedIs(ports, one, p);
        WantedIs(ports, groups, p);
      } else {
        WantedNone(ports, one, id);
      }
    }
  }

  lemma {:induction false} WantedNone(ports: seq<Port>, groups: map<string, string>, id: string)
    requires forall p | p in ports :: p.id != id || p.networkId !in groups
    ensures Wanted(ports, groups, id).None?
  {
    if ports != [] {
      var n := |ports| - 1;
      assert ports[n] in ports && forall p | p in ports[..n] :: p in ports;
      WantedNone(ports[..n], groups, id);
    }
  }

  // ----- The manager ------------------------------------------------------------------------

  /** Each row is as before or as wanted. */
  predicate BetweenBound(before: map<string, Option<string>>, after: map<string, Option<string>>, ports: seq<Port>,
                         groups: map<string, string>) {
    && before.Keys == after.Keys
    && forall id | id in before ::
        after[id] == before[id] || (exists p :: p in ports && p.id == id && p.networkId in groups
                                                                 && after[id] == Some(groups[p.networkId]))
  }

  class Manager {
    const ports: seq<Port>
    const owned: string -> bool
    var lrps: map<string, Option<string>>
    var failures: nat
    var writes: nat

    constructor (ports: seq<Port>, owned: string -> bool, lrps: map<string, Option<string>>)
      ensures this.ports == ports && this.owned == owned && this.lrps == lrps
    {
      this.ports, this.owned, this.lrps := ports, owned, lrps;
      failures, writes := 0, 0;
    }

    method Call() returns (raised: bool)
      modifies this`failures
      ensures failures == old(failures) + if raised then 1 else 0
    {
      raised := *;
      if raised { failures := failures + 1; }
    }

    method QueryPorts(networks: set<string>) returns (raised: bool, r: seq<Port>)
      modifies this`failures
      ensures failures == old(failures) + if raised then 1 else 0
      ensures r == Filter(ports, networks)
    {
      raised := Call();
      r := Filter(ports, networks);
    }

    /** Chunks of at most 100 ids; a chunk whose query raises is left out. */
    method GetRouterPortsForNetworks(ids: seq<string>) returns (m: map<string, seq<Port>>)
      requires DistinctIds(ids)
      modifies this`failures
      ensures failures >= old(failures)
      ensures failures == old(failures) ==> GroupedBy(m, Filter(ports, ToSet(ids)))
      ensures forall n, p | n in m && p in m[n] :: p in ports && p.networkId == n
    {
      hide GroupedBy, SameByNetwork, Filter, ToSet;
      m := map[];
      ghost var found: seq<Port> := [];
      NothingFound(ports);
      var i := 0;
      while i < |ids|
        invariant 0 <= i
        invariant failures >= old(failures)
        invariant GroupedBy(m, found) && forall p | p in found :: p in ports
        invariant failures == old(failures) ==> SameByNetwork(found, ports, ToSet(if i <= |ids| then ids[..i] else ids))
        decreases |ids| - i
      {
        var end := if i + CHUNK_SIZE <= |ids| then i + CHUNK_SIZE else |ids|;
        var chunk := ids[i..end];
        ChunksDisjoint(ids, i, end);
        var raised, more := QueryPorts(ToSet(chunk));
        if !raised {
          if failures == old(failures) { ChunkStep(found, ports, ToSet(ids[..i]), ToSet(chunk)); }
          forall p | p in more ensures p in ports { FilterMember(ports, ToSet(chunk), p); }
          m := GroupPorts(m, more, found);
          found := found + more;
        }
        i := i + CHUNK_SIZE;
        assert end == |ids| ==> ids[..end] == ids;
      }
      assert ids[..|ids|] == ids;
      if failures == old(failures) { GroupedIsUnchunked(m, found, ports, ids); }
      forall n, p | n in m && p in m[n] ensures p in ports && p.networkId == n { GroupedMember(m, found, n, p); }
    }

    /** The ports of one chunk into the lists of their networks. */
    method GroupPorts(m0: map<string, seq<Port>>, more: seq<Port>, ghost found: seq<Port>)
      returns (m: map<string, seq<Port>>)
      requires GroupedBy(m0, found)
      ensures GroupedBy(m, found + more)
    {
      hide GroupedBy, AddPort;
      m := m0;
      assert found + more[..0] == found;
      for j := 0 to |more|
        invariant GroupedBy(m, found + more[..j])
      {
        GroupedStep(m, found + more[..j], more[j]);
        m := AddPort(m, more[j]);
        assert found + more[..j + 1] == found + more[..j] + [more[j]];
      }
      assert more[..|more|] == more;
    }

    lemma NothingFound(ports: seq<Port>)
      ensures GroupedBy(map[], []) && forall ids: seq<string> | ids == [] :: SameByNetwork([], ports, ToSet(ids))
    {
    }

    lemma GroupedMember(m: map<string, seq<Port>>, found: seq<Port>, n: string, p: Port)
      requires GroupedBy(m, found) && n in m && p in m[n]
      ensures p in found && p.networkId == n
    {
      FilterMember(found, {n}, p);
    }

    lemma ChunksDisjoint(ids: seq<string>, i: nat, end: nat)
      requires DistinctIds(ids) && i <= end <= |ids|
      ensures ToSet(ids[..i]) !! ToSet(ids[i..end]) && ToSet(ids[..i]) + ToSet(ids[i..end]) == ToSet(ids[..end])
    {
    }

    /** One router port: written only when it carries another group. */
    method UpdateLrp(id: string, group: string) returns (raised: bool)
      modifies this`failures, this`writes, this`lrps
      ensures failures == old(failures) + if raised then 1 else 0
      ensures lrps == if !raised && id in old(lrps) then old(lrps)[id := Some(group)] else old(lrps)
      ensures id !in old(lrps) || old(lrps)[id] == Some(group) ==> writes == old(writes)
    {
      raised := Call();
      if raised || id !in lrps { return; }
      if lrps[id] == Some(group) { return; }
      writes := writes + 1;
      raised := Call();
      if !raised { lrps := lrps[id := Some(group)]; }
    }

    method BindPorts(list: seq<Port>, group: string)
      modifies this`failures, this`writes, this`lrps
      ensures failures >= old(failures) && lrps.Keys == old(lrps).Keys
      ensures forall id | id in lrps ::
                lrps[id] == old(lrps)[id] || (lrps[id] == Some(group) && exists p :: p in list && p.id == id)
      ensures failures == old(failures) ==> lrps == SetAll(old(lrps), list, group)
      ensures SetAll(old(lrps), list, group) == old(lrps) ==> writes == old(writes) && lrps == old(lrps)
    {
      assert SetAll(lrps, list[..0], group) == lrps;
      for i := 0 to |list|
        invariant failures >= old(failures) && lrps.Keys == old(lrps).Keys
        invariant forall id | id in lrps ::
                    lrps[id] == old(lrps)[id] || (lrps[id] == Some(group) && exists p :: p in list && p.id == id)
        invariant failures == old(failures) ==> lrps == SetAll(old(lrps), list[..i], group)
        invariant SetAll(old(lrps), list, group) == old(lrps) ==> writes == old(writes) && lrps == old(lrps)
      {
        assert list[i] in list;
        SetAllSnoc(old(lrps), list, i, group);
        assert SetAll(old(lrps), list, group) == old(lrps) && list[i].id in old(lrps) ==>
                 SetAll(old(lrps), list, group)[list[i].id] == Some(group);
        var raised := UpdateLrp(list[i].id, group);
      }
      assert list[..|list|] == list;
    }

    lemma SetAllSnoc(before: map<string, Option<string>>, list: seq<Port>, i: nat, group: string)
      requires i < |list|
      ensures SetAll(before, list[..i + 1], group)
           == if list[i].id in before then SetAll(before, list[..i], group)[list[i].id := Some(group)]
               else SetAll(before, list[..i], group)
    {
    }

    /** The event of one network's group. */
    method BindRouterInterfacesForNetwork(n: string, group: string)
      requires UniquePorts(ports)
      modifies this`failures, this`writes, this`lrps
      ensures failures >= old(failures)
      ensures BetweenBound(old(lrps), lrps, ports, map[n := group])
      ensures !owned(n) ==> lrps == old(lrps) && writes == old(writes)
      ensures failures == old(failures) && owned(n) ==> lrps == Bound(old(lrps), ports, map[n := group])
    {
      if !owned(n) { return; }
      var raised, list := QueryPorts({n});
      if raised { return; }
      forall p ensures p in list <==> p in ports && p.networkId == n { FilterMember(ports, {n}, p); }
      BindPorts(list, group);
      assert map[n := group].Keys == {n};
      SetAllIsBound(old(lrps), ports, map[n := group], {}, n);
    }

    /** Group rows into one group per network. */
    method GetNetworksWithGroups(rows: seq<GroupRow>) returns (m: map<string, string>)
      ensures m == Groups(rows)
    {
      m := map[];
      for i := 0 to |rows|
        invariant m == Groups(rows[..i])
      {
        assert rows[..i + 1][..i] == rows[..i];
        if rows[i].networkId != "" { m := m[rows[i].networkId := rows[i].group]; }
      }
      assert rows[..|rows|] == rows;
    }

    function MyGroups(rows: seq<GroupRow>): map<string, string> {
      map n | n in Groups(rows) && owned(n) :: Groups(rows)[n]
    }

    /** The periodic pass. Whatever calls raise, a row only ever takes the wanted group;
        when none does, all rows are as wanted, and if they were before nothing is written. */
    method Reconcile(rows: seq<GroupRow>)
      requires UniquePorts(ports)
      modifies this`failures, this`writes, this`lrps
      ensures failures >= old(failures)
      ensures BetweenBound(old(lrps), lrps, ports, MyGroups(rows))
      ensures failures == old(failures) ==> lrps == Bound(old(lrps), ports, MyGroups(rows))
      ensures failures == old(failures) && Bound(old(lrps), ports, MyGroups(rows)) == old(lrps) ==>
                writes == old(writes) && lrps == old(lrps)
    {
      hide GroupedBy, Filter, Bound, Groups, MyGroups, Wanted, SetAll, ToSet;
      var all := GetNetworksWithGroups(rows);
      ghost var mine := MyGroups(rows);
      MineAre(rows);
      var ids := ManagedIds(all);
      ManagedAre(rows, ids);
      var byNetwork := GetRouterPortsForNetworks(ids);
      BoundNothing(lrps, ports, mine);
      assert ids[..0] == [];
      for i := 0 to |ids|
        invariant failures >= old(failures)
        invariant failures == old(failures) ==> GroupedBy(byNetwork, Filter(ports, ToSet(ids)))
        invariant BetweenBound(old(lrps), lrps, ports, mine)
        invariant failures == old(failures) ==> lrps == Bound(old(lrps), Filter(ports, ToSet(ids[..i])), mine)
        invariant failures == old(failures) && Bound(old(lrps), ports, mine) == old(lrps) ==>
                    writes == old(writes) && lrps == old(lrps)
      {
        var n := ids[i];
        assert n in ToSet(ids) by { InSet(ids, i); }
        ghost var before := lrps;
        var list := if n in byNetwork then byNetwork[n] else [];
        if failures == old(failures) {
          ListIs(byNetwork, ports, ids, n, list);
          SetAllIsBound(old(lrps), ports, mine, ToSet(ids[..i]), n);
          PrefixSet(ids, i);
          SetAllSettled(old(lrps), ports, mine, n);
        }
        BindPorts(list, all[n]);
        StillBetween(old(lrps), before, lrps, ports, mine, n, list);
      }
      assert ids[..|ids|] == ids;
      BoundFiltered(old(lrps), ports, mine);
    }

    method ManagedIds(all: map<string, string>) returns (ids: seq<string>)
      ensures DistinctIds(ids) && forall n :: n in ids <==> n in all && owned(n)
    {
      ids := [];
      var todo := all.Keys;
      while todo != {}
        invariant todo <= all.Keys && DistinctIds(ids)
        invariant forall n :: n in ids <==> n in all && n !in todo && owned(n)
        decreases todo
      {
        var n := Pick(todo);
        todo := todo - {n};
        if owned(n) { ids := ids + [n]; }
      }
    }

    lemma MineAre(rows: seq<GroupRow>)
      ensures forall n :: n in MyGroups(rows) <==> n in Groups(rows) && owned(n)
      ensures forall n | n in MyGroups(rows) :: MyGroups(rows)[n] == Groups(rows)[n]
    {
    }

    lemma ManagedAre(rows: seq<GroupRow>, ids: seq<string>)
      requires forall n :: n in ids <==> n in Groups(rows) && owned(n)
      ensures ToSet(ids) == MyGroups(rows).Keys
    {
    }
  }

  predicate UniquePorts(ports: seq<Port>) {
    forall a, b | a in ports && b in ports :: a.id == b.id ==> a == b
  }

  function SetAll(lrps: map<string, Option<string>>, list: seq<Port>, group: string): map<string, Option<string>> {
    map id | id in lrps :: if exists p :: p in list && p.id == id then Some(group) else lrps[id]
  }

  /** Binding one more network's ports. */
  lemma SetAllIsBound(lrps: map<string, Option<string>>, ports: seq<Port>, groups: map<string, string>,
                      done: set<string>, n: string)
    requires UniquePorts(ports) && n in groups
    ensures SetAll(Bound(lrps, Filter(ports, done), groups), Filter(ports, {n}), groups[n])
         == Bound(lrps, Filter(ports, done + {n}), groups)
    ensures done == {} && groups.Keys == {n} ==>
              SetAll(lrps, Filter(ports, {n}), groups[n]) == Bound(lrps, ports, groups)
  {
    hide Wanted, Filter, HasPort;
    forall id | id in lrps
      ensures SetAll(Bound(lrps, Filter(ports, done), groups), Filter(ports, {n}), groups[n])[id]
           == Bound(lrps, Filter(ports, done + {n}), groups)[id]
    {
      WantedMore(ports, groups, done, n, id);
      HasFiltered(ports, n, id);
    }
    assert SetAll(Bound(lrps, Filter(ports, done), groups), Filter(ports, {n}), groups[n])
        == Bound(lrps, Filter(ports, done + {n}), groups);
    if done == {} && groups.Keys == {n} {
      FilterNone(ports);
      assert done + {n} == groups.Keys;
      BoundFiltered(lrps, ports, groups);
      BoundNone(lrps, groups);
    }
  }

  predicate HasPort(ports: seq<Port>, n: string, id: string) {
    exists p :: p in ports && p.id == id && p.networkId == n
  }

  lemma HasFiltered(ports: seq<Port>, n: string, id: string)
    ensures HasPort(ports, n, id) <==> exists p :: p in Filter(ports, {n}) && p.id == id
  {
  }

  lemma BoundNone(lrps: map<string, Option<string>>, groups: map<string, string>)
    ensures Bound(lrps, [], groups) == lrps
  {
  }

  lemma {:induction false} FilterNone(ports: seq<Port>)
    ensures Filter(ports, {}) == []
  {
    if ports != [] { FilterNone(ports[..|ports| - 1]); }
  }

  lemma WantedMore(ports: seq<Port>, groups: map<string, string>, done: set<string>, n: string, id: string)
    requires UniquePorts(ports) && n in groups
    ensures Wanted(Filter(ports, done + {n}), groups, id)
         == if HasPort(ports, n, id) then Some(groups[n]) else Wanted(Filter(ports, done), groups, id)
  {
    hide Wanted, Filter;
    WantedIn(ports, groups, done, id);
    WantedIn(ports, groups, done + {n}, id);
    if p :| p in ports && p.id == id && p.networkId == n {
      WantedIs(ports, groups, p);
    }
  }

  lemma WantedIn(ports: seq<Port>, groups: map<string, string>, nets: set<string>, id: string)
    requires UniquePorts(ports)
    ensures Wanted(Filter(ports, nets), groups, id)
         == if exists p :: p in ports && p.id == id && p.networkId in nets && p.networkId in groups
            then Wanted(ports, groups, id) else None
  {
    var f := Filter(ports, nets);
    forall p ensures p in f <==> p in ports && p.networkId in nets { FilterMember(ports, nets, p); }
    if p :| p in ports && p.id == id && p.networkId in nets && p.networkId in groups {
      WantedIs(f, groups, p);
      WantedIs(ports, groups, p);
    } else {
      WantedNone(f, groups, id);
    }
  }

  lemma BoundNothing(lrps: map<string, Option<string>>, ports: seq<Port>, groups: map<string, string>)
    ensures Bound(lrps, Filter(ports, ToSet([])), groups) == lrps
    ensures BetweenBound(lrps, lrps, ports, groups)
  {
    assert ToSet([]) == {};
    FilterNone(ports);
  }

  lemma BoundFiltered(lrps: map<string, Option<string>>, ports: seq<Port>, groups: map<string, string>)
    ensures Bound(lrps, Filter(ports, groups.Keys), groups) == Bound(lrps, ports, groups)
  {
    forall id { WantedFiltered(ports, groups, id); }
  }

  lemma InSet(ids: seq<string>, i: nat)
    requires i < |ids|
    ensures ids[i] in ToSet(ids) && ids[i] in ids
  {
  }

  lemma PrefixSet(ids: seq<string>, i: nat)
    requires i < |ids|
    ensures ToSet(ids[..i + 1]) == ToSet(ids[..i]) + {ids[i]}
  {
  }

  lemma ListIs(m: map<string, seq<Port>>, ports: seq<Port>, ids: seq<string>, n: string, list: seq<Port>)
    requires GroupedBy(m, Filter(ports, ToSet(ids))) && n in ToSet(ids) && list == if n in m then m[n] else []
    ensures list == Filter(ports, {n})
  {
    FilterFilter(ports, ToSet(ids), n);
  }

  /** A settled network is left alone. */
  lemma SetAllSettled(lrps: map<string, Option<string>>, ports: seq<Port>, groups: map<string, string>, n: string)
    requires UniquePorts(ports) && n in groups
    ensures Bound(lrps, ports, groups) == lrps ==> SetAll(lrps, Filter(ports, {n}), groups[n]) == lrps
  {
    if Bound(lrps, ports, groups) == lrps {
      forall id | id in lrps ensures SetAll(lrps, Filter(ports, {n}), groups[n])[id] == lrps[id] {
        if p :| p in Filter(ports, {n}) && p.id == id {
          FilterMember(ports, {n}, p);
          WantedIs(ports, groups, p);
          assert Bound(lrps, ports, groups)[id] == Some(groups[n]);
        }
      }
    }
  }

  lemma StillBetween(start: map<string, Option<string>>, before: map<string, Option<string>>,
                     after: map<string, Option<string>>, ports: seq<Port>, groups: map<string, string>, n: string,
                     list: seq<Port>)
    requires BetweenBound(start, before, ports, groups) && after.Keys == before.Keys && n in groups
    requires forall id | id in after ::
               after[id] == before[id] || (after[id] == Some(groups[n]) && exists p :: p in list && p.id == id)
    requires forall p | p in list :: p in ports && p.networkId == n
    ensures BetweenBound(start, after, ports, groups)
  {
  }
}
