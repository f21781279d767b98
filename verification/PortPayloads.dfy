/** What the NETCONF/OpenConfig switch driver sends to plug and unplug a port, and
    that unplugging undoes plugging. */
module PortPayloads {
  import opened Wrappers
  import opened Names
  import opened OpenConfig
  import opened ConfigObjects

  const NON_SWITCH_BOND_MODES := {"active-backup", "1", "balance-tlb", "5", "balance-alb", "6"}
  const LACP_BOND_MODES := {"802.3ad", "4"}
  const PRE_CONF_ONLY_BOND_MODES := {"balance-rr", "0", "balance-xor", "2", "broadcast", "3"}

  /** Device options. `rename` is the port id substitution. */
  datatype Settings = Settings(
    portMtu: bool, manageLacp: bool, prefix: string, lo: nat, hi: nat, nexus: bool, rename: string -> string)

  /** What the driver reads of the port, its network and the segment to bind.
      `segmentVlan` is None for a segment that is not of type VLAN. */
  datatype Port = Port(
    id: string, adminUp: bool, bondMode: string, fastRate: bool, minLinks: int,
    mtu: int, vlanNetwork: bool, segmentVlan: Option<int>)

  datatype Mode = NonBond | Lacp | PreConf | Unsupported

  function ModeOf(s: Settings, bondMode: string): Mode {
    if bondMode == "" || bondMode in NON_SWITCH_BOND_MODES then NonBond
    else if bondMode in LACP_BOND_MODES then (if s.manageLacp then Lacp else PreConf)
    else if bondMode in PRE_CONF_ONLY_BOND_MODES then PreConf
    else Unsupported
  }

  // ----- Entries -------------------------------------------------------------------------

  function Mtu(s: Settings, mtu: int): Option<int> {
    if s.portMtu then Some(mtu) else None
  }

  function Description(port: Port): Option<string> {
    Some("neutron-" + port.id)
  }

  /** VLAN ids the `VlanId` type accepts: `range(1, 4094)`. */
  predicate AccessVlanOk(v: int) {
    1 <= v < 4094
  }

  function AccessVlan(port: Port): Option<SwitchedVlan> {
    if port.segmentVlan.None? then None else Some(SwitchedVlan(Replace, Some("ACCESS"), port.segmentVlan))
  }

  function NonBondLink(s: Settings, port: Port, link: string): Entry {
    Ethernet(s.rename(link), Some(ConfigGroup(Merge, None, Description(port), Some(port.adminUp), Mtu(s, port.mtu))),
             if AccessVlan(port).Some? then Some(EthernetGroup(Merge, None, AccessVlan(port))) else None)
  }

  function LacpLink(s: Settings, port: Port, id: string, link: string): Entry {
    Ethernet(s.rename(link), Some(ConfigGroup(Merge, None, Description(port), Some(port.adminUp), Mtu(s, port.mtu))),
             Some(EthernetGroup(Merge, Some(id), Some(SwitchedVlan(Merge, None, None)))))
  }

  function LacpAggregate(port: Port, id: string): Entry {
    Aggregate(id, Merge, Some(ConfigGroup(Merge, Some(id), Description(port), Some(port.adminUp), None)),
              Some(AggregationGroup(Merge, Some("LACP"), if port.minLinks != 0 then Some(port.minLinks) else None,
                                    AccessVlan(port))))
  }

  function LacpProtocol(s: Settings, port: Port, id: string): LacpEntry {
    LacpEntry(id, Replace,
              Some(LacpConfig(Merge, id, if s.nexus then None
                  else Some(if port.fastRate then "FAST" else "SLOW"), "ACTIVE")))
  }

  function PreConfAggregate(port: Port, id: string): Entry {
    Aggregate(id, Merge, Some(ConfigGroup(Merge, None, None, Some(port.adminUp), None)),
              Some(AggregationGroup(Merge, None, None, AccessVlan(port))))
  }

  function LinkRemoval(s: Settings): ConfigGroup {
    ConfigGroup(Remove, None, Some(""), Some(false), Mtu(s, 0))
  }

  function VlanRemoval(port: Port): Option<SwitchedVlan> {
    if port.vlanNetwork then Some(SwitchedVlan(Remove, None, None)) else None
  }

  function NonBondLinkGone(s: Settings, port: Port, link: string): Entry {
    Ethernet(s.rename(link), Some(LinkRemoval(s)),
             if port.vlanNetwork then Some(EthernetGroup(Merge, None, VlanRemoval(port))) else None)
  }

  function LacpLinkGone(s: Settings, port: Port, link: string): Entry {
    Ethernet(s.rename(link), Some(LinkRemoval(s)), Some(EthernetGroup(Remove, None, VlanRemoval(port))))
  }

  function AggregateGone(id: string): Entry {
    Aggregate(id, Remove, None, None)
  }

  function LacpGone(id: string): LacpEntry {
    LacpEntry(id, Remove, None)
  }

  function PreConfGone(id: string): Entry {
    Aggregate(id, Merge, Some(ConfigGroup(Merge, None, None, Some(false), None)),
              Some(AggregationGroup(Merge, None, None, Some(SwitchedVlan(Remove, None, None)))))
  }

  function Each<T>(names: seq<string>, f: string -> T): (r: seq<T>)
    ensures |r| == |names| && forall i | 0 <= i < |r| :: r[i] == f(names[i])
  {
    seq(|names|, i requires 0 <= i < |names| => f(names[i]))
  }

  function NonBondEntries(s: Settings, port: Port, links: seq<string>): (r: seq<Entry>)
    ensures |r| == |links| && forall i | 0 <= i < |r| :: r[i] == NonBondLink(s, port, links[i])
  {
    Each(links, l => NonBondLink(s, port, l))
  }

  function NonBondEntriesGone(s: Settings, port: Port, links: seq<string>): (r: seq<Entry>)
    ensures |r| == |links| && forall i | 0 <= i < |r| :: r[i] == NonBondLinkGone(s, port, links[i])
  {
    Each(links, l => NonBondLinkGone(s, port, l))
  }

  function PreConfEntries(port: Port, aggs: seq<string>): (r: seq<Entry>)
    ensures |r| == |aggs| && forall i | 0 <= i < |r| :: r[i] == PreConfAggregate(port, aggs[i])
  {
    Each(aggs, a => PreConfAggregate(port, a))
  }

  function PreConfEntriesGone(aggs: seq<string>): (r: seq<Entry>)
    ensures |r| == |aggs| && forall i | 0 <= i < |r| :: r[i] == PreConfGone(aggs[i])
  {
    Each(aggs, a => PreConfGone(a))
  }

  function LacpGones(aggs: seq<string>): seq<LacpEntry> {
    Each(aggs, a => LacpGone(a))
  }

  function LacpEntries(s: Settings, port: Port, links: seq<string>, id: string): seq<Entry> {
    Each(links, l => LacpLink(s, port, id, l)) + [LacpAggregate(port, id)]
  }

  function LacpEntriesGone(s: Settings, port: Port, links: seq<string>, aggs: seq<string>): seq<Entry> {
    Each(links, l => LacpLinkGone(s, port, l)) + Each(aggs, a => AggregateGone(a))
  }

  // ----- What create and delete do to the device ---------------------------------------------

  /** `id` is the aggregate allocated for a managed LACP bond, `aggs` the aggregates the
      links already belong to. */
  function CreateEdits(s: Settings, port: Port, links: seq<string>, id: string, aggs: seq<string>): seq<Edit> {
    match ModeOf(s, port.bondMode)
    case NonBond => ListEdits(NonBondEntries(s, port, links))
    case Lacp =>
      ListEdits(LacpEntries(s, port, links, id)) + LacpListEdits([LacpProtocol(s, port, id)])
    case PreConf => ListEdits(PreConfEntries(port, aggs))
    case Unsupported => []
  }

  function DeleteEdits(s: Settings, port: Port, links: seq<string>, aggs: seq<string>): seq<Edit> {
    match ModeOf(s, port.bondMode)
    case NonBond => ListEdits(NonBondEntriesGone(s, port, links))
    case Lacp =>
      LacpListEdits(LacpGones(aggs)) + ListEdits(LacpEntriesGone(s, port, links, aggs))
    case PreConf => ListEdits(PreConfEntriesGone(aggs))
    case Unsupported => []
  }

  function AggregateIdPath(link: string): Path {
    InterfacePath(link) + [Tag("ethernet"), Tag("config"), Tag("aggregate-id")]
  }

  predicate IsAggregateIdPath(p: Path) {
    |p| == 5 && p == AggregateIdPath(p[1].key)
  }

  /** What `get` with a filter on these interfaces finds; a filter without any selects
      every interface. */
  function AggregateIds(c: Config, links: seq<string>): set<string> {
    set p: Path | p in c && IsAggregateIdPath(p) && (links == [] || p[1].key in links) :: c[p]
  }

  predicate Enumerates(aggs: seq<string>, ids: set<string>) {
    (set a | a in aggs) == ids
  }

  // ----- The round trip ----------------------------------------------------------------------

  lemma {:induction false} ListMember(es: seq<Entry>, x: Edit)
    ensures x in ListEdits(es) <==> exists e :: e in es && x in EntryEdits(e)
    decreases |es|
  {
    hide EntryEdits;
    if es != [] {
      var n := |es| - 1;
      ListMember(es[..n], x);
      assert forall e | e in es :: e in es[..n] || e == es[n];
    }
  }

  lemma {:induction false} LacpListMember(es: seq<LacpEntry>, x: Edit)
    ensures x in LacpListEdits(es) <==> exists e :: e in es && x in LacpEdits(e)
    decreases |es|
  {
    hide LacpEdits;
    if es != [] {
      var n := |es| - 1;
      LacpListMember(es[..n], x);
      assert forall e | e in es :: e in es[..n] || e == es[n];
    }
  }

  lemma UndoneParts(a: seq<Edit>, b: seq<Edit>, d: seq<Edit>)
    requires Undone(a, d) && Undone(b, d)
    ensures Undone(a + b, d)
  {
  }

  lemma UndoneMore(a: seq<Edit>, d: seq<Edit>, more: seq<Edit>)
    requires Undone(a, d) && forall f | f in d :: f in more
    ensures Undone(a, more)
  {
  }

  lemma UndoneOne(x: Edit, f: Edit, d: seq<Edit>)
    requires f in d && Covered(x, f)
    ensures Undone([x], d)
  {
  }

  /** All edits are below the cleared path. */
  lemma UndoneBelow(a: seq<Edit>, path: Path, d: seq<Edit>)
    requires Clear(path) in d && forall x | x in a :: path <= x.path
    ensures Undone(a, d)
  {
  }

  /** An ethernet entry is undone part by part. */
  lemma EthernetUndone(c: Entry, d: Entry)
    requires c.Ethernet? && d.Ethernet? && c.name == d.name
    requires Undone(OptConfigEdits(c.config, InterfacePath(c.name)), OptConfigEdits(d.config, InterfacePath(c.name)))
    requires c.ethernet.Some? ==>
               d.ethernet.Some? && Undone(EthernetEdits(c.ethernet.value, InterfacePath(c.name)),
                                          EthernetEdits(d.ethernet.value, InterfacePath(c.name)))
    ensures Undone(EntryEdits(c), EntryEdits(d))
  {
    hide OptConfigEdits, EthernetEdits, Undone;
    var path := InterfacePath(c.name);
    var ds := EntryEdits(d);
    var name := Set(path + [Tag("name")], c.name);
    UndoneOne(name, name, ds);
    UndoneMore(OptConfigEdits(c.config, path), OptConfigEdits(d.config, path), ds);
    if c.ethernet.Some? {
      UndoneMore(EthernetEdits(c.ethernet.value, path), EthernetEdits(d.ethernet.value, path), ds);
      UndoneParts(OptConfigEdits(c.config, path), EthernetEdits(c.ethernet.value, path), ds);
      UndoneParts([name], OptConfigEdits(c.config, path) + EthernetEdits(c.ethernet.value, path), ds);
    } else {
      assert OptConfigEdits(c.config, path) + [] == OptConfigEdits(c.config, path);
      UndoneParts([name], OptConfigEdits(c.config, path), ds);
    }
  }

  /** The configuration leaves of a link are undone by its removal. */
  lemma LinkConfigUndone(s: Settings, c: ConfigGroup, path: Path)
    requires c.op == Merge && c.name.None? && (c.mtu.Some? ==> s.portMtu)
    ensures Undone(OptConfigEdits(Some(c), path), OptConfigEdits(Some(LinkRemoval(s)), path))
  {
    var at := path + [Tag("config")];
    var d := OptConfigEdits(Some(LinkRemoval(s)), path);
    LeafUndone(c.description, at + [Tag("description")], d);
    LeafUndone(BoolText(c.enabled), at + [Tag("enabled")], d);
    if c.mtu.Some? { LeafUndone(IntText(c.mtu), at + [Tag("mtu")], d); }
    hide Undone;
    UndoneNothing(d);
    UndoneParts(LeafEdit(Merge, at + [Tag("enabled")], BoolText(c.enabled)),
        LeafEdit(Merge, at + [Tag("mtu")], IntText(c.mtu)), d);
    UndoneParts([], LeafEdit(Merge, at + [Tag("description")], c.description), d);
    UndoneParts(LeafEdit(Merge, at + [Tag("name")], c.name) + LeafEdit(Merge, at + [Tag("description")], c.description),
                LeafEdit(Merge, at + [Tag("enabled")], BoolText(c.enabled))
                    + LeafEdit(Merge, at + [Tag("mtu")], IntText(c.mtu)), d);
  }

  lemma LeafUndone(text: Option<string>, path: Path, d: seq<Edit>)
    requires Clear(path) in d
    ensures Undone(LeafEdit(Merge, path, text), d)
  {
  }

  lemma SwitchedVlanUndone(v: SwitchedVlan, at: Path)
    ensures Undone(SwitchedVlanEdits(Some(v), at), SwitchedVlanEdits(Some(SwitchedVlan(Remove, None, None)), at))
  {
    var path := at + [Tag("switched-vlan")] + [Tag("config")];
    UndoneBelow(SwitchedVlanEdits(Some(v), at), path, SwitchedVlanEdits(Some(SwitchedVlan(Remove, None, None)), at));
  }

  lemma NonBondLinkUndone(s: Settings, port: Port, link: string)
    requires port.segmentVlan.Some? ==> port.vlanNetwork
    ensures Undone(EntryEdits(NonBondLink(s, port, link)), EntryEdits(NonBondLinkGone(s, port, link)))
  {
    hide SwitchedVlanEdits, Undone;
    var c, d := NonBondLink(s, port, link), NonBondLinkGone(s, port, link);
    LinkConfigUndone(s, c.config.value, InterfacePath(c.name));
    if c.ethernet.Some? {
      var at := InterfacePath(c.name) + [Tag("ethernet")];
      SwitchedVlanUndone(AccessVlan(port).value, at);
      assert EthernetEdits(c.ethernet.value, InterfacePath(c.name)) == SwitchedVlanEdits(AccessVlan(port), at);
      assert EthernetEdits(d.ethernet.value, InterfacePath(c.name)) == SwitchedVlanEdits(VlanRemoval(port), at);
    }
    EthernetUndone(c, d);
  }

  lemma LacpLinkUndone(s: Settings, port: Port, id: string, link: string)
    ensures Undone(EntryEdits(LacpLink(s, port, id, link)), EntryEdits(LacpLinkGone(s, port, link)))
  {
    var c, d := LacpLink(s, port, id, link), LacpLinkGone(s, port, link);
    var path := InterfacePath(c.name);
    LinkConfigUndone(s, c.config.value, path);
    UndoneBelow(EthernetEdits(c.ethernet.value, path), path + [Tag("ethernet")] + [Tag("config")],
                EthernetEdits(d.ethernet.value, path));
    hide Undone;
    EthernetUndone(c, d);
  }

  lemma EnabledOnly(op: Op, enabled: bool, path: Path)
    requires op == Merge
    ensures OptConfigEdits(Some(ConfigGroup(op, None, None, Some(enabled), None)), path)
         == [Set(path + [Tag("config")] + [Tag("enabled")], if enabled then "true" else "false")]
  {
  }

  lemma EmptyGroup(a: AggregationGroup, at: Path)
    requires a.op == Merge && a.lagType.None? && a.minLinks.None?
    ensures AggregationEdits(a, at) == SwitchedVlanEdits(a.switchedVlan, at + [Tag("aggregation")])
  {
  }

  lemma PreConfParts(id: string, enabled: bool, vlan: Option<SwitchedVlan>, path: Path)
    requires path == InterfacePath(id)
    ensures EntryEdits(Aggregate(id, Merge, Some(ConfigGroup(Merge, None, None, Some(enabled), None)),
                                 Some(AggregationGroup(Merge, None, None, vlan))))
         == [Set(path + [Tag("name")], id)]
            + ([Set(path + [Tag("config")] + [Tag("enabled")], if enabled then "true" else "false")]
               + SwitchedVlanEdits(vlan, path + [Tag("aggregation")]))
  {
    hide OptConfigEdits, SwitchedVlanEdits, AggregationEdits;
    EnabledOnly(Merge, enabled, InterfacePath(id));
    EmptyGroup(AggregationGroup(Merge, None, None, vlan), InterfacePath(id));
  }

  lemma PreConfUndone(port: Port, id: string)
    ensures Undone(EntryEdits(PreConfAggregate(port, id)), EntryEdits(PreConfGone(id)))
  {
    hide OptConfigEdits, SwitchedVlanEdits, Undone, EntryEdits;
    var path := InterfacePath(id);
    var at := path + [Tag("aggregation")];
    var ds := EntryEdits(PreConfGone(id));
    var name := Set(path + [Tag("name")], id);
    var enabled := path + [Tag("config")] + [Tag("enabled")];
    var on, off := Set(enabled, if port.adminUp then "true" else "false"), Set(enabled, "false");
    PreConfParts(id, port.adminUp, AccessVlan(port), path);
    PreConfParts(id, false, Some(SwitchedVlan(Remove, None, None)), path);
    var vlan, gone := SwitchedVlanEdits(AccessVlan(port), at),
        SwitchedVlanEdits(Some(SwitchedVlan(Remove, None, None)), at);
    UndoneOne(name, name, ds);
    UndoneOne(on, off, ds);
    NoVlan(at);
    if AccessVlan(port).Some? {
      SwitchedVlanUndone(AccessVlan(port).value, at);
    } else {
      UndoneNothing(gone);
    }
    UndoneMore(vlan, gone, ds);
    UndoneParts([on], vlan, ds);
    UndoneParts([name], [on] + vlan, ds);
  }

  lemma UndoneNothing(d: seq<Edit>)
    ensures Undone([], d)
  {
  }

  lemma NoVlan(at: Path)
    ensures SwitchedVlanEdits(None, at) == []
  {
  }

  // ----- Lists of entries ----------------------------------------------------------------------

  lemma ListUndone(es: seq<Entry>, d: seq<Edit>)
    requires forall e | e in es :: Undone(EntryEdits(e), d)
    ensures Undone(ListEdits(es), d)
  {
  }

  lemma EntryInList(es: seq<Entry>, e: Entry)
    requires e in es
    ensures forall x | x in EntryEdits(e) :: x in ListEdits(es)
  {
    forall x | x in EntryEdits(e) ensures x in ListEdits(es) { ListMember(es, x); }
  }

  /** Every link entry is undone when its removal is among the entries of the list. */
  lemma LinksUndone(links: seq<string>, create: string -> Entry, gone: string -> Entry, ds: seq<Entry>, d: seq<Edit>)
    requires forall l | l in links :: gone(l) in ds && Undone(EntryEdits(create(l)), EntryEdits(gone(l)))
    requires forall x | x in ListEdits(ds) :: x in d
    ensures Undone(ListEdits(Each(links, create)), d)
  {
    hide EntryEdits, ListEdits, Undone;
    forall e | e in Each(links, create) ensures Undone(EntryEdits(e), d) {
      var i :| 0 <= i < |links| && e == create(links[i]);
      assert links[i] in links;
      EntryInList(ds, gone(links[i]));
      UndoneMore(EntryEdits(e), EntryEdits(gone(links[i])), d);
    }
    ListUndone(Each(links, create), d);
  }

  lemma EachHas(links: seq<string>, f: string -> Entry)
    ensures forall l | l in links :: f(l) in Each(links, f)
  {
  }

  lemma NonBondUndone(s: Settings, port: Port, links: seq<string>)
    requires port.segmentVlan.Some? ==> port.vlanNetwork
    ensures Undone(ListEdits(NonBondEntries(s, port, links)), ListEdits(NonBondEntriesGone(s, port, links)))
  {
    hide EntryEdits, ListEdits, Undone, NonBondLink, NonBondLinkGone;
    var gone := (l: string) => NonBondLinkGone(s, port, l);
    EachHas(links, gone);
    forall l | l in links
      ensures Undone(EntryEdits(NonBondLink(s, port, l)), EntryEdits(NonBondLinkGone(s, port, l)))
    {
      NonBondLinkUndone(s, port, l);
    }
    LinksUndone(links, l => NonBondLink(s, port, l), gone, Each(links, gone), ListEdits(Each(links, gone)));
    assert Each(links, gone) == NonBondEntriesGone(s, port, links);
  }

  lemma PreConfListUndone(port: Port, aggs: seq<string>, found: seq<string>)
    requires forall a | a in aggs :: a in found
    ensures Undone(ListEdits(PreConfEntries(port, aggs)), ListEdits(PreConfEntriesGone(found)))
  {
    hide EntryEdits, ListEdits, Undone, PreConfAggregate, PreConfGone;
    var gone := (a: string) => PreConfGone(a);
    EachHas(found, gone);
    forall a | a in aggs ensures Undone(EntryEdits(PreConfAggregate(port, a)), EntryEdits(PreConfGone(a))) {
      PreConfUndone(port, a);
    }
    LinksUndone(aggs, a => PreConfAggregate(port, a), gone, Each(found, gone), ListEdits(Each(found, gone)));
    assert Each(found, gone) == PreConfEntriesGone(found);
  }

  // ----- Managed LACP bonds ---------------------------------------------------------------------

  predicate Below(es: seq<Edit>, path: Path) {
    forall x | x in es :: path <= x.path
  }

  lemma BelowMore(es: seq<Edit>, path: Path, at: Path)
    requires Below(es, at) && path <= at
    ensures Below(es, path)
  {
  }

  lemma BelowBoth(a: seq<Edit>, b: seq<Edit>, path: Path)
    requires Below(a, path) && Below(b, path)
    ensures Below(a + b, path)
  {
  }

  lemma OptConfigBelow(c: Option<ConfigGroup>, path: Path)
    ensures Below(OptConfigEdits(c, path), path)
  {
    if c.Some? {
      ConfigPaths(c.value, path + [Tag("config")]);
      BelowMore(ConfigEdits(c.value, path + [Tag("config")]), path, path + [Tag("config")]);
    }
  }

  /** An interface entry only edits below its own path. */
  lemma EntryPaths(e: Entry)
    ensures forall x | x in EntryEdits(e) :: InterfacePath(e.name) <= x.path
  {
    hide InterfacePath, OptConfigEdits, EthernetEdits, AggregationEdits, Below;
    var path := InterfacePath(e.name);
    OptConfigBelow(e.config, path);
    var rest: seq<Edit> := [];
    match e {
      case Ethernet(_, _, Some(ethernet)) =>
        EthernetPaths(ethernet, path);
        rest := EthernetEdits(ethernet, path);
        OneBelow(rest, path, path + [Tag("ethernet")]);
      case Ethernet(_, _, None) => OneBelow([], path, path);
      case Aggregate(_, _, _, Some(aggregation)) =>
        AggregationPaths(aggregation, path);
        rest := AggregationEdits(aggregation, path);
        OneBelow(rest, path, path + [Tag("aggregation")]);
      case Aggregate(_, _, _, None) => OneBelow([], path, path);
    }
    BelowBoth(OptConfigEdits(e.config, path), rest, path);
    NameAndRest(e.name, path, OptConfigEdits(e.config, path) + rest);
  }

  lemma OneBelow(es: seq<Edit>, path: Path, at: Path)
    requires path <= at && forall x | x in es :: at <= x.path
    ensures Below(es, path)
  {
  }

  lemma NameAndRest(name: string, path: Path, rest: seq<Edit>)
    requires Below(rest, path)
    ensures forall x | x in [Set(path + [Tag("name")], name)] + rest :: path <= x.path
    ensures forall op :: forall x | x in GroupEdits(op, path, [Set(path + [Tag("name")], name)] + rest) ::
              path <= x.path
  {
  }

  lemma ConfigPaths(c: ConfigGroup, at: Path)
    ensures forall x | x in ConfigEdits(c, at) :: at <= x.path
  {
  }

  lemma SwitchedVlanPaths(v: Option<SwitchedVlan>, at: Path)
    ensures forall x | x in SwitchedVlanEdits(v, at) :: at + [Tag("switched-vlan")] <= x.path
  {
  }

  lemma EthernetPaths(e: EthernetGroup, at: Path)
    ensures forall x | x in EthernetEdits(e, at) :: at + [Tag("ethernet")] <= x.path
  {
    hide SwitchedVlanEdits;
    SwitchedVlanPaths(e.switchedVlan, at + [Tag("ethernet")]);
  }

  lemma AggregationPaths(a: AggregationGroup, at: Path)
    ensures forall x | x in AggregationEdits(a, at) :: at + [Tag("aggregation")] <= x.path
  {
  }

  lemma LacpPaths(e: LacpEntry)
    ensures forall x | x in LacpEdits(e) :: LacpPath(e.name) <= x.path
  {
  }

  lemma LacpUndone(s: Settings, port: Port, links: seq<string>, id: string, aggs: seq<string>)
    requires id in aggs
    ensures Undone(ListEdits(LacpEntries(s, port, links, id)) + LacpListEdits([LacpProtocol(s, port, id)]),
                   LacpListEdits(LacpGones(aggs)) + ListEdits(LacpEntriesGone(s, port, links, aggs)))
  {
    hide EntryEdits, LacpEdits, ListEdits, LacpListEdits, Undone, LacpLink, LacpLinkGone, LacpAggregate, LacpProtocol,
         InterfacePath, LacpPath;
    var gone, lacpGone := LacpEntriesGone(s, port, links, aggs), LacpGones(aggs);
    var ds := LacpListEdits(lacpGone) + ListEdits(gone);
    forall e | e in LacpEntries(s, port, links, id) ensures Undone(EntryEdits(e), ds) {
      if e == LacpAggregate(port, id) {
        AggregateUndone(s, port, links, id, aggs);
        UndoneMore(EntryEdits(e), ListEdits(gone), ds);
      } else {
        var i :| 0 <= i < |links| && e == LacpLink(s, port, id, links[i]);
        assert LacpLinkGone(s, port, links[i]) == gone[i];
        EntryInList(gone, gone[i]);
        LacpLinkUndone(s, port, id, links[i]);
        UndoneMore(EntryEdits(e), EntryEdits(gone[i]), ds);
      }
    }
    ListUndone(LacpEntries(s, port, links, id), ds);
    ProtocolUndone(s, port, id, aggs);
    UndoneMore(LacpListEdits([LacpProtocol(s, port, id)]), LacpListEdits(lacpGone), ds);
    UndoneParts(ListEdits(LacpEntries(s, port, links, id)), LacpListEdits([LacpProtocol(s, port, id)]), ds);
  }

  lemma AggregateUndone(s: Settings, port: Port, links: seq<string>, id: string, aggs: seq<string>)
    requires id in aggs
    ensures Undone(EntryEdits(LacpAggregate(port, id)), ListEdits(LacpEntriesGone(s, port, links, aggs)))
  {
    var gone := LacpEntriesGone(s, port, links, aggs);
    var i :| 0 <= i < |aggs| && aggs[i] == id;
    assert gone[|links| + i] == AggregateGone(id);
    assert EntryEdits(AggregateGone(id)) == [Clear(InterfacePath(id))];
    EntryInList(gone, AggregateGone(id));
    EntryPaths(LacpAggregate(port, id));
    hide EntryEdits, ListEdits, InterfacePath;
    assert LacpAggregate(port, id).name == id;
    UndoneBelow(EntryEdits(LacpAggregate(port, id)), InterfacePath(id), ListEdits(gone));
  }

  lemma ProtocolUndone(s: Settings, port: Port, id: string, aggs: seq<string>)
    requires id in aggs
    ensures Undone(LacpListEdits([LacpProtocol(s, port, id)]), LacpListEdits(LacpGones(aggs)))
  {
    var gone := LacpGones(aggs);
    var i :| 0 <= i < |aggs| && aggs[i] == id;
    assert gone[i] == LacpGone(id);
    assert LacpEdits(LacpGone(id)) == [Clear(LacpPath(id))];
    LacpListMember(gone, Clear(LacpPath(id)));
    LacpPaths(LacpProtocol(s, port, id));
    assert LacpListEdits([LacpProtocol(s, port, id)]) == LacpEdits(LacpProtocol(s, port, id)) by {
      assert LacpListEdits([]) == [];
    }
    hide LacpEdits, LacpListEdits, LacpPath;
    UndoneBelow(LacpListEdits([LacpProtocol(s, port, id)]), LacpPath(id), LacpListEdits(gone));
  }

  // ----- What the links' query finds after a create ------------------------------------------------

  lemma {:induction false} SetWins(c: Config, es: seq<Edit>, p: Path, v: string)
    requires Set(p, v) in es && forall x | x in es :: Touches(x, p) ==> x == Set(p, v)
    ensures p in Play(c, es) && Play(c, es)[p] == v
    decreases |es|
  {
    var n := |es| - 1;
    if es[n] != Set(p, v) {
      assert !Touches(es[n], p) && Set(p, v) in es[..n];
      SetWins(c, es[..n], p, v);
    }
  }

  lemma OtherGroup(es: seq<Edit>, at: Path, n: string)
    requires |at| == 3 && at[2] != Tag("ethernet") && forall x | x in es :: at <= x.path
    ensures forall x | x in es :: !Touches(x, AggregateIdPath(n))
  {
  }

  /** Of a link's entry only the aggregate id itself touches its path. */
  lemma LinkTouches(s: Settings, port: Port, id: string, link: string, n: string)
    ensures s.rename(link) == n ==> Set(AggregateIdPath(n), id) in EntryEdits(LacpLink(s, port, id, link))
    ensures forall x | x in EntryEdits(LacpLink(s, port, id, link)) :: Touches(x, AggregateIdPath(n)) ==>
              x == Set(AggregateIdPath(n), id)
  {
    var e := LacpLink(s, port, id, link);
    var path := InterfacePath(e.name);
    var config := ConfigEdits(e.config.value, path + [Tag("config")]);
    ConfigPaths(e.config.value, path + [Tag("config")]);
    OtherGroup(config, path + [Tag("config")], n);
    var at := path + [Tag("ethernet")] + [Tag("config")] + [Tag("aggregate-id")];
    assert EthernetEdits(e.ethernet.value, path) == [Set(at, id)];
    assert EntryEdits(e) == [Set(path + [Tag("name")], e.name)] + (config + [Set(at, id)]);
    assert at == AggregateIdPath(e.name);
    hide EntryEdits, EthernetEdits, ConfigEdits, LacpLink;
    assert |path + [Tag("name")]| != |AggregateIdPath(n)|;
    assert AggregateIdPath(e.name)[1] == Label("interface", e.name) && AggregateIdPath(n)[1] == Label("interface", n);
  }

  lemma AggregateTouches(port: Port, id: string, n: string)
    ensures forall x | x in EntryEdits(LacpAggregate(port, id)) :: !Touches(x, AggregateIdPath(n))
  {
    var e := LacpAggregate(port, id);
    var path := InterfacePath(id);
    var config, rest := ConfigEdits(e.config.value, path + [Tag("config")]),
        AggregationEdits(e.aggregation.value, path);
    ConfigPaths(e.config.value, path + [Tag("config")]);
    OtherGroup(config, path + [Tag("config")], n);
    AggregationPaths(e.aggregation.value, path);
    OtherGroup(rest, path + [Tag("aggregation")], n);
    assert EntryEdits(e) == [Set(path + [Tag("name")], id)] + (config + rest);
    hide EntryEdits, AggregationEdits, ConfigEdits, LacpAggregate;
    assert |path + [Tag("name")]| != |AggregateIdPath(n)|;
  }

  lemma ProtocolTouches(s: Settings, port: Port, id: string, n: string)
    ensures forall x | x in LacpListEdits([LacpProtocol(s, port, id)]) :: !Touches(x, AggregateIdPath(n))
  {
    var e := LacpProtocol(s, port, id);
    LacpPaths(e);
    assert LacpListEdits([e]) == LacpEdits(e) by { assert LacpListEdits([]) == []; }
    hide LacpEdits, LacpListEdits;
    forall x | x in LacpEdits(e) ensures !Touches(x, AggregateIdPath(n)) {
      assert x.path[0] == Tag("lacp");
    }
  }

  /** After a managed LACP create the links belong to the new aggregate and to no other. */
  lemma LinksJoin(c: Config, s: Settings, port: Port, links: seq<string>, id: string)
    requires links != []
    ensures AggregateIds(Play(c, ListEdits(LacpEntries(s, port, links, id))
              + LacpListEdits([LacpProtocol(s, port, id)])),
                         Each(links, s.rename)) == {id}
  {
    var es := ListEdits(LacpEntries(s, port, links, id)) + LacpListEdits([LacpProtocol(s, port, id)]);
    var after := Play(c, es);
    forall i | 0 <= i < |links|
      ensures AggregateIdPath(s.rename(links[i])) in after && after[AggregateIdPath(s.rename(links[i]))] == id
    {
      LinkJoins(c, s, port, links, id, i);
    }
    hide Play, ListEdits, LacpListEdits, LacpEntries, LacpProtocol;
    var names := Each(links, s.rename);
    forall p: Path | p in after && IsAggregateIdPath(p) && p[1].key in names ensures after[p] == id {
      var i :| 0 <= i < |names| && names[i] == p[1].key;
      assert p == AggregateIdPath(s.rename(links[i]));
    }
    var p := AggregateIdPath(names[0]);
    assert p in after && IsAggregateIdPath(p) && p[1].key in names;
  }

  lemma LinkJoins(c: Config, s: Settings, port: Port, links: seq<string>, id: string, i: nat)
    requires i < |links|
    ensures var after := Play(c, ListEdits(LacpEntries(s, port, links, id))
              + LacpListEdits([LacpProtocol(s, port, id)]));
            AggregateIdPath(s.rename(links[i])) in after && after[AggregateIdPath(s.rename(links[i]))] == id
  {
    hide EntryEdits, ListEdits, LacpListEdits, Play, LacpLink, LacpAggregate, LacpProtocol, AggregateIdPath, Touches;
    var n := s.rename(links[i]);
    var list := LacpEntries(s, port, links, id);
    var es := ListEdits(list) + LacpListEdits([LacpProtocol(s, port, id)]);
    forall x | x in es && Touches(x, AggregateIdPath(n)) ensures x == Set(AggregateIdPath(n), id) {
      ProtocolTouches(s, port, id, n);
      ListMember(list, x);
      var e :| e in list && x in EntryEdits(e);
      AggregateTouches(port, id, n);
      var j :| 0 <= j < |links| && e == LacpLink(s, port, id, links[j]);
      LinkTouches(s, port, id, links[j], n);
    }
    LinkTouches(s, port, id, links[i], n);
    assert list[i] == LacpLink(s, port, id, links[i]);
    EntryInList(list, list[i]);
    SetWins(c, es, AggregateIdPath(n), id);
  }

  /** Configuring preconfigured aggregates does not change which ones the links are in. */
  lemma PreConfKeepsIds(c: Config, port: Port, aggs: seq<string>, names: seq<string>)
    ensures AggregateIds(Play(c, ListEdits(PreConfEntries(port, aggs))), names) == AggregateIds(c, names)
  {
    var es := ListEdits(PreConfEntries(port, aggs));
    forall p: Path | IsAggregateIdPath(p) ensures SameAt(Play(c, es), c, p) {
      PreConfElsewhere(port, aggs, p[1].key);
      PlayElsewhere(c, es, p);
    }
    hide Play, ListEdits;
    assert forall p: Path | IsAggregateIdPath(p) :: p in Play(c, es) <==> p in c;
  }

  lemma PreConfElsewhere(port: Port, aggs: seq<string>, n: string)
    ensures forall x | x in ListEdits(PreConfEntries(port, aggs)) :: !Touches(x, AggregateIdPath(n))
  {
    var list := PreConfEntries(port, aggs);
    hide ListEdits, EntryEdits, PreConfAggregate, Touches, AggregateIdPath;
    forall x | x in ListEdits(list) ensures !Touches(x, AggregateIdPath(n)) {
      ListMember(list, x);
      var e :| e in list && x in EntryEdits(e);
      var i :| 0 <= i < |aggs| && e == PreConfAggregate(port, aggs[i]);
      PreConfTouches(port, aggs[i], n);
    }
  }

  lemma PreConfTouches(port: Port, id: string, n: string)
    ensures forall x | x in EntryEdits(PreConfAggregate(port, id)) :: !Touches(x, AggregateIdPath(n))
  {
    var path := InterfacePath(id);
    var at := path + [Tag("aggregation")];
    PreConfParts(id, port.adminUp, AccessVlan(port), path);
    SwitchedVlanPaths(AccessVlan(port), at);
    OtherGroup(SwitchedVlanEdits(AccessVlan(port), at), at, n);
    hide EntryEdits, SwitchedVlanEdits;
    assert |path + [Tag("name")]| != |AggregateIdPath(n)|;
    assert |path + [Tag("config")] + [Tag("enabled")]| != |AggregateIdPath(n)|;
  }

  lemma EnumeratesMore(aggs: seq<string>, ids: set<string>, a: string)
    requires Enumerates(aggs, ids)
    ensures Enumerates(aggs + [a], ids + {a})
  {
  }

  lemma SameEnumerated(a: seq<string>, b: seq<string>, ids: set<string>)
    requires Enumerates(a, ids) && Enumerates(b, ids)
    ensures forall x | x in a :: x in b
  {
    forall x | x in a ensures x in b {
      assert x in ids;
    }
  }

  // ----- The main results -----------------------------------------------------------------------

  /** What a port's create, then its delete with the same options, does to any device is
      what the delete alone does: nothing the create wrote is left. A non-bonded port
      needs the segment type and the network type to agree (a network of one segment);
      the aggregates the delete works on are the ones the links' query finds. */
  lemma DeleteUndoesCreate(c: Config, s: Settings, port: Port, links: seq<string>, id: string,
                           aggs: seq<string>, found: seq<string>)
    requires ModeOf(s, port.bondMode) == NonBond && port.segmentVlan.Some? ==> port.vlanNetwork
    requires ModeOf(s, port.bondMode) == Lacp ==> links != []
    requires Enumerates(aggs, AggregateIds(c, Each(links, s.rename)))
    requires Enumerates(found, AggregateIds(Play(c, CreateEdits(s, port, links, id, aggs)), Each(links, s.rename)))
    ensures Play(Play(c, CreateEdits(s, port, links, id, aggs)), DeleteEdits(s, port, links, found))
         == Play(c, DeleteEdits(s, port, links, found))
    ensures ModeOf(s, port.bondMode) == Lacp ==> (set a | a in found) == {id}
  {
    hide Play, ListEdits, LacpListEdits, Undone, AggregateIds, EntryEdits;
    match ModeOf(s, port.bondMode) {
      case NonBond => NonBondUndone(s, port, links);
      case Lacp =>
        LinksJoin(c, s, port, links, id);
        assert id in found;
        LacpUndone(s, port, links, id, found);
      case PreConf =>
        PreConfKeepsIds(c, port, aggs, Each(links, s.rename));
        assert CreateEdits(s, port, links, id, aggs) == ListEdits(PreConfEntries(port, aggs));
        SameEnumerated(aggs, found, AggregateIds(c, Each(links, s.rename)));
        PreConfListUndone(port, aggs, found);
      case Unsupported => UndoneNothing(DeleteEdits(s, port, links, found));
    }
    UndoneMeansDelete(c, CreateEdits(s, port, links, id, aggs), DeleteEdits(s, port, links, found));
  }

  // ----- What is left, what is untouched --------------------------------------------------------

  lemma {:induction false} OnlySets(c: Config, es: seq<Edit>, p: Path)
    requires forall x | x in es && x.Set? :: x.path != p
    ensures p in Play(c, es) ==> p in c && Play(c, es)[p] == c[p]
    decreases |es|
  {
    if es != [] {
      assert es[|es| - 1] in es;
      OnlySets(c, es[..|es| - 1], p);
    }
  }

  /** The name leaf of one of these interfaces. */
  predicate NameOf(p: Path, names: seq<string>) {
    |p| == 3 && p == InterfacePath(p[1].key) + [Tag("name")] && p[1].key in names
  }

  predicate SetsOnlyNames(es: seq<Edit>, names: seq<string>) {
    forall x | x in es && x.Set? :: NameOf(x.path, names)
  }

  lemma LinkRemovalClears(s: Settings, at: Path)
    ensures forall x | x in ConfigEdits(LinkRemoval(s), at) :: x.Clear?
  {
  }

  lemma EthernetRemovalClears(e: EthernetGroup, at: Path)
    requires e.aggregateId.None? && (e.switchedVlan.Some? ==> e.switchedVlan.value.op == Remove)
    ensures forall x | x in EthernetEdits(e, at) :: x.Clear?
  {
  }

  lemma LinkGoneSets(s: Settings, port: Port, link: string, names: seq<string>)
    requires s.rename(link) in names
    ensures SetsOnlyNames(EntryEdits(NonBondLinkGone(s, port, link)), names)
    ensures SetsOnlyNames(EntryEdits(LacpLinkGone(s, port, link)), names)
  {
    var a, b := NonBondLinkGone(s, port, link), LacpLinkGone(s, port, link);
    var path := InterfacePath(s.rename(link));
    LinkRemovalClears(s, path + [Tag("config")]);
    if a.ethernet.Some? { EthernetRemovalClears(a.ethernet.value, path); }
    EthernetRemovalClears(b.ethernet.value, path);
    hide ConfigEdits, EthernetEdits;
    assert (path + [Tag("name")])[1] == Label("interface", s.rename(link));
  }

  lemma ListSets(es: seq<Entry>, names: seq<string>)
    requires forall e | e in es :: SetsOnlyNames(EntryEdits(e), names)
    ensures SetsOnlyNames(ListEdits(es), names)
  {
  }

  lemma DeleteSets(s: Settings, port: Port, links: seq<string>, found: seq<string>)
    requires ModeOf(s, port.bondMode) != PreConf
    ensures SetsOnlyNames(DeleteEdits(s, port, links, found), Each(links, s.rename))
  {
    hide EntryEdits, ListEdits, NonBondLinkGone, LacpLinkGone, NameOf, LacpEdits, LacpListEdits;
    var names := Each(links, s.rename);
    assert forall i | 0 <= i < |links| :: s.rename(links[i]) == names[i];
    match ModeOf(s, port.bondMode) {
      case NonBond =>
        var es := NonBondEntriesGone(s, port, links);
        forall e | e in es ensures SetsOnlyNames(EntryEdits(e), names) {
          var i :| 0 <= i < |links| && e == NonBondLinkGone(s, port, links[i]);
          LinkGoneSets(s, port, links[i], names);
        }
        ListSets(es, names);
      case Lacp =>
        var es := LacpEntriesGone(s, port, links, found);
        forall e | e in es ensures SetsOnlyNames(EntryEdits(e), names) {
          var i :| 0 <= i < |es| && e == es[i];
          if i < |links| { LinkGoneSets(s, port, links[i], names); } else { AggregateGoneSets(found[i - |links|]); }
        }
        ListSets(es, names);
        LacpGoneSets(found);
        assert DeleteEdits(s, port, links, found) == LacpListEdits(LacpGones(found)) + ListEdits(es);
      case Unsupported =>
    }
  }

  lemma AggregateGoneSets(id: string)
    ensures EntryEdits(AggregateGone(id)) == [Clear(InterfacePath(id))]
  {
  }

  lemma LacpGoneSets(aggs: seq<string>)
    ensures forall x | x in LacpListEdits(LacpGones(aggs)) :: x.Clear?
  {
    var es := LacpGones(aggs);
    forall x | x in LacpListEdits(es) ensures x.Clear? {
      LacpListMember(es, x);
      var e :| e in es && x in LacpEdits(e);
      var i :| 0 <= i < |aggs| && e == LacpGone(aggs[i]);
      assert LacpEdits(e) == [Clear(LacpPath(aggs[i]))];
    }
  }

  /** After create and delete, apart from the names of the links, the device holds
      nothing it did not hold before: no leaf, no aggregate, no LACP entry. */
  lemma RoundTripAddsNothing(c: Config, s: Settings, port: Port, links: seq<string>, id: string,
                             aggs: seq<string>, found: seq<string>)
    requires ModeOf(s, port.bondMode) == NonBond && port.segmentVlan.Some? ==> port.vlanNetwork
    requires ModeOf(s, port.bondMode) == Lacp ==> links != []
    requires ModeOf(s, port.bondMode) != PreConf
    requires Enumerates(aggs, AggregateIds(c, Each(links, s.rename)))
    requires Enumerates(found, AggregateIds(Play(c, CreateEdits(s, port, links, id, aggs)), Each(links, s.rename)))
    ensures var r := Play(Play(c, CreateEdits(s, port, links, id, aggs)), DeleteEdits(s, port, links, found));
            forall p | p in r && !NameOf(p, Each(links, s.rename)) :: p in c && r[p] == c[p]
  {
    DeleteUndoesCreate(c, s, port, links, id, aggs, found);
    DeleteSets(s, port, links, found);
    var ds, names := DeleteEdits(s, port, links, found), Each(links, s.rename);
    hide Play, CreateEdits, DeleteEdits, AggregateIds, NameOf;
    forall p | p in Play(c, ds) && !NameOf(p, names) ensures p in c && Play(c, ds)[p] == c[p] {
      OnlySets(c, ds, p);
    }
  }

  /** `p` belongs to another interface than the links and the aggregates at hand. */
  predicate Elsewhere(p: Path, names: seq<string>) {
    forall n | n in names :: !(InterfacePath(n) <= p) && !(LacpPath(n) <= p)
  }

  predicate Stays(es: seq<Edit>, names: seq<string>) {
    forall x | x in es :: exists n :: n in names && (InterfacePath(n) <= x.path || LacpPath(n) <= x.path)
  }

  lemma StaysUntouched(c: Config, es: seq<Edit>, names: seq<string>, p: Path)
    requires Stays(es, names) && Elsewhere(p, names)
    ensures SameAt(Play(c, es), c, p)
  {
  }

  lemma ListStays(es: seq<Entry>, names: seq<string>)
    requires forall e | e in es :: e.name in names
    ensures Stays(ListEdits(es), names)
  {
    hide EntryEdits, ListEdits, InterfacePath, LacpPath;
    forall x | x in ListEdits(es)
      ensures exists n :: n in names && (InterfacePath(n) <= x.path || LacpPath(n) <= x.path)
    {
      ListMember(es, x);
      var e :| e in es && x in EntryEdits(e);
      EntryPaths(e);
    }
  }

  lemma LacpStays(es: seq<LacpEntry>, names: seq<string>)
    requires forall e | e in es :: e.name in names
    ensures Stays(LacpListEdits(es), names)
  {
    hide LacpEdits, LacpListEdits, InterfacePath, LacpPath;
    forall x | x in LacpListEdits(es)
      ensures exists n :: n in names && (InterfacePath(n) <= x.path || LacpPath(n) <= x.path)
    {
      LacpListMember(es, x);
      var e :| e in es && x in LacpEdits(e);
      LacpPaths(e);
    }
  }

  lemma CreateStays(s: Settings, port: Port, links: seq<string>, id: string, aggs: seq<string>, names: seq<string>)
    requires (forall l | l in links :: s.rename(l) in names) && id in names && forall a | a in aggs :: a in names
    ensures Stays(CreateEdits(s, port, links, id, aggs), names)
  {
    hide ListEdits, LacpListEdits, Stays;
    match ModeOf(s, port.bondMode) {
      case NonBond => ListStays(NonBondEntries(s, port, links), names);
      case Lacp =>
        ListStays(LacpEntries(s, port, links, id), names);
        LacpStays([LacpProtocol(s, port, id)], names);
        BothStay(ListEdits(LacpEntries(s, port, links, id)), LacpListEdits([LacpProtocol(s, port, id)]), names);
      case PreConf => ListStays(PreConfEntries(port, aggs), names);
      case Unsupported => NothingStays(names);
    }
  }

  lemma DeleteStays(s: Settings, port: Port, links: seq<string>, found: seq<string>, names: seq<string>)
    requires (forall l | l in links :: s.rename(l) in names) && forall a | a in found :: a in names
    ensures Stays(DeleteEdits(s, port, links, found), names)
  {
    hide ListEdits, LacpListEdits, Stays;
    match ModeOf(s, port.bondMode) {
      case NonBond => ListStays(NonBondEntriesGone(s, port, links), names);
      case Lacp =>
        ListStays(LacpEntriesGone(s, port, links, found), names);
        LacpStays(LacpGones(found), names);
        BothStay(LacpListEdits(LacpGones(found)), ListEdits(LacpEntriesGone(s, port, links, found)), names);
      case PreConf => ListStays(PreConfEntriesGone(found), names);
      case Unsupported => NothingStays(names);
    }
  }

  /** Neither create nor delete touches any other interface. */
  lemma OthersUntouched(c: Config, s: Settings, port: Port, links: seq<string>, id: string, aggs: seq<string>,
                        found: seq<string>, names: seq<string>, p: Path)
    requires (forall l | l in links :: s.rename(l) in names) && id in names
    requires forall a | a in aggs || a in found :: a in names
    requires Elsewhere(p, names)
    ensures SameAt(Play(c, CreateEdits(s, port, links, id, aggs)), c, p)
    ensures SameAt(Play(c, DeleteEdits(s, port, links, found)), c, p)
  {
    CreateStays(s, port, links, id, aggs, names);
    DeleteStays(s, port, links, found, names);
    StaysUntouched(c, CreateEdits(s, port, links, id, aggs), names, p);
    StaysUntouched(c, DeleteEdits(s, port, links, found), names, p);
  }

  lemma BothStay(a: seq<Edit>, b: seq<Edit>, names: seq<string>)
    requires Stays(a, names) && Stays(b, names)
    ensures Stays(a + b, names)
  {
  }

  lemma NothingStays(names: seq<string>)
    ensures Stays([], names)
  {
  }

  /** The leaf that says which VLAN a link is in. */
  function AccessVlanPath(name: string): Path {
    InterfacePath(name) + [Tag("ethernet")] + [Tag("switched-vlan")] + [Tag("config")] + [Tag("access-vlan")]
  }

  // ----- The leftover VLAN ----------------------------------------------------------------------

  ghost predicate Writes(es: seq<Edit>, p: Path, v: string) {
    forall c :: p in Play(c, es) && Play(c, es)[p] == v
  }

  lemma NonBondWrites(s: Settings, port: Port, link: string)
    requires port.segmentVlan.Some?
    ensures Writes(EntryEdits(NonBondLink(s, port, link)), AccessVlanPath(s.rename(link)),
              Decimal(port.segmentVlan.value))
  {
  }

  lemma OtherEntry(e: Entry, n: string)
    requires e.name != n
    ensures forall x | x in EntryEdits(e) :: !Touches(x, AccessVlanPath(n))
  {
    EntryPaths(e);
    hide EntryEdits;
    assert InterfacePath(e.name)[1] == Label("interface", e.name) && AccessVlanPath(n)[1] == Label("interface", n);
    forall x | x in EntryEdits(e) ensures !Touches(x, AccessVlanPath(n)) {
      assert x.path[1] == Label("interface", e.name);
    }
  }

  /** After the create every link of a non-bonded port is in the segment's VLAN. */
  lemma {:induction false} CreateSetsVlan(c: Config, s: Settings, port: Port, links: seq<string>, n: string)
    requires port.segmentVlan.Some? && n in Each(links, s.rename)
    ensures var r := Play(c, ListEdits(NonBondEntries(s, port, links)));
            AccessVlanPath(n) in r && r[AccessVlanPath(n)] == Decimal(port.segmentVlan.value)
    decreases |links|
  {
    hide Play, ListEdits, EntryEdits, Writes, NonBondLink, NonBondEntries, AccessVlanPath;
    var k := |links| - 1;
    var last := NonBondLink(s, port, links[k]);
    NonBondSnoc(c, s, port, links);
    NonBondWrites(s, port, links[k]);
    NonBondName(s, port, links[k]);
    var before := Play(c, ListEdits(NonBondEntries(s, port, links[..k])));
    if last.name == n {
      WritesMeans(before, EntryEdits(last), AccessVlanPath(n), Decimal(port.segmentVlan.value));
    } else {
      var i :| 0 <= i < |links| && Each(links, s.rename)[i] == n;
      assert Each(links[..k], s.rename)[i] == n;
      CreateSetsVlan(c, s, port, links[..k], n);
      OtherEntry(last, n);
      PlayElsewhere(before, EntryEdits(last), AccessVlanPath(n));
    }
  }

  lemma NonBondSnoc(c: Config, s: Settings, port: Port, links: seq<string>)
    requires links != []
    ensures var k := |links| - 1;
            Play(c, ListEdits(NonBondEntries(s, port, links)))
            == Play(Play(c, ListEdits(NonBondEntries(s, port, links[..k]))), EntryEdits(NonBondLink(s, port, links[k])))
  {
    var k := |links| - 1;
    var es := NonBondEntries(s, port, links);
    assert es[..k] == NonBondEntries(s, port, links[..k]);
    ListSnoc(c, es);
  }

  lemma ListSnoc(c: Config, es: seq<Entry>)
    requires es != []
    ensures Play(c, ListEdits(es)) == Play(Play(c, ListEdits(es[..|es| - 1])), EntryEdits(es[|es| - 1]))
  {
    PlayConcat(c, ListEdits(es[..|es| - 1]), EntryEdits(es[|es| - 1]));
  }

  lemma NonBondName(s: Settings, port: Port, link: string)
    ensures NonBondLink(s, port, link).name == s.rename(link)
  {
  }

  lemma WritesMeans(c: Config, es: seq<Edit>, p: Path, v: string)
    requires Writes(es, p, v)
    ensures p in Play(c, es) && Play(c, es)[p] == v
  {
  }

  /** When the segment is of type VLAN and the network is not (the VLAN segment below an
      overlay network), unplugging a non-bonded port leaves its links in the VLAN.
      Exactly then: on a device whose links were in no VLAN before. */
  lemma LeftoverVlan(c: Config, s: Settings, port: Port, links: seq<string>, id: string, aggs: seq<string>)
    requires ModeOf(s, port.bondMode) == NonBond
    requires forall n | n in Each(links, s.rename) :: AccessVlanPath(n) !in c
    ensures Play(Play(c, CreateEdits(s, port, links, id, aggs)), DeleteEdits(s, port, links, aggs))
         == Play(c, DeleteEdits(s, port, links, aggs))
       <==> !(port.segmentVlan.Some? && !port.vlanNetwork && links != [])
  {
    var cs, ds := CreateEdits(s, port, links, id, aggs), DeleteEdits(s, port, links, aggs);
    if links == [] {
      assert cs == [] && ds == [];
      UndoneNothing(ds);
      UndoneMeansDelete(c, cs, ds);
    } else if port.segmentVlan.Some? && !port.vlanNetwork {
      var n := Each(links, s.rename)[0];
      CreateSetsVlan(c, s, port, links, n);
      DeleteKeepsVlan(s, port, links, n);
      PlayElsewhere(Play(c, cs), ds, AccessVlanPath(n));
      PlayElsewhere(c, ds, AccessVlanPath(n));
    } else {
      NonBondUndone(s, port, links);
      UndoneMeansDelete(c, cs, ds);
    }
  }

  lemma DeleteKeepsVlan(s: Settings, port: Port, links: seq<string>, n: string)
    requires !port.vlanNetwork
    ensures forall x | x in ListEdits(NonBondEntriesGone(s, port, links)) :: !Touches(x, AccessVlanPath(n))
  {
    var es := NonBondEntriesGone(s, port, links);
    hide ListEdits, EntryEdits, NonBondLinkGone, Touches;
    forall x | x in ListEdits(es) ensures !Touches(x, AccessVlanPath(n)) {
      ListMember(es, x);
      var e :| e in es && x in EntryEdits(e);
      var i :| 0 <= i < |links| && e == NonBondLinkGone(s, port, links[i]);
      LinkKeepsVlan(s, port, links[i], n);
    }
  }

  lemma LinkKeepsVlan(s: Settings, port: Port, link: string, n: string)
    requires !port.vlanNetwork
    ensures forall x | x in EntryEdits(NonBondLinkGone(s, port, link)) :: !Touches(x, AccessVlanPath(n))
  {
    var e := NonBondLinkGone(s, port, link);
    var path := InterfacePath(e.name);
    ConfigPaths(e.config.value, path + [Tag("config")]);
    hide ConfigEdits;
    assert |path + [Tag("name")]| == 3 && AccessVlanPath(n)[2] == Tag("ethernet");
    forall x | x in ConfigEdits(e.config.value, path + [Tag("config")]) ensures !Touches(x, AccessVlanPath(n)) {
      assert x.path[2] == Tag("config");
    }
  }

  // ----- A delete without links -------------------------------------------------------------------

  lemma {:induction false} ClearWins(c: Config, es: seq<Edit>, at: Path, p: Path)
    requires Clear(at) in es && at <= p && forall x | x in es :: x.Clear?
    ensures p !in Play(c, es)
    decreases |es|
  {
    var n := |es| - 1;
    assert es[n] in es;
    if es[n] != Clear(at) {
      ClearWins(c, es[..n], at, p);
    }
  }

  /** Unplugging a managed LACP port that has no links queries the device with an empty
      filter, which selects every interface: all aggregates that have members are
      removed, whoever configured them. */
  lemma EmptyLinksRemoveAll(c: Config, s: Settings, port: Port, found: seq<string>, p: Path, q: Path)
    requires ModeOf(s, port.bondMode) == Lacp && Enumerates(found, AggregateIds(c, []))
    requires p in c && IsAggregateIdPath(p) && InterfacePath(c[p]) <= q
    ensures q !in Play(c, DeleteEdits(s, port, [], found))
  {
    var a := c[p];
    assert a in AggregateIds(c, []);
    var i :| 0 <= i < |found| && found[i] == a;
    var es := LacpEntriesGone(s, port, [], found);
    assert es[i] == AggregateGone(a);
    AggregateGoneSets(a);
    EntryInList(es, AggregateGone(a));
    DeleteSets(s, port, [], found);
    var ds := DeleteEdits(s, port, [], found);
    assert Clear(InterfacePath(a)) in ds;
    hide Play, DeleteEdits, InterfacePath, AggregateIds;
    forall x | x in ds ensures x.Clear? {
      assert x.Set? ==> NameOf(x.path, Each([], s.rename));
    }
    ClearWins(c, ds, InterfacePath(a), q);
  }

  // ----- As payload trees -----------------------------------------------------------------------------

  lemma TwoPayloads(c: Config, es: seq<Entry>, ls: seq<LacpEntry>)
    requires forall e | e in es :: NoReplace(e)
    ensures Apply(c, [InterfacesElement(es)]) == Play(c, ListEdits(es))
    ensures Apply(c, [InterfacesElement(es), LacpElement(ls)]) == Play(c, ListEdits(es) + LacpListEdits(ls))
    ensures Apply(c, [LacpElement(ls), InterfacesElement(es)]) == Play(c, LacpListEdits(ls) + ListEdits(es))
  {
    PayloadEdits(es, ls);
    var i, l := InterfacesElement(es), LacpElement(ls);
    AllEditsConcat([i], [l], [], Merge);
    AllEditsConcat([l], [i], [], Merge);
    assert [i, l] == [i] + [l] && [l, i] == [l] + [i];
  }

  lemma GoneNoReplace(s: Settings, port: Port, links: seq<string>, aggs: seq<string>)
    ensures forall e | e in LacpEntriesGone(s, port, links, aggs) :: NoReplace(e)
  {
  }

  // ----- Deferred ids, resolved -----------------------------------------------------------------------

  lemma AllocatedEntries(s: Settings, port: Port, links: seq<string>, id: string)
    ensures forall i | 0 <= i <= |links| ::
              Allocated(LacpEntries(s, port, links, DEFERRED)[i], id) == LacpEntries(s, port, links, id)[i]
    ensures AllocatedLacp(LacpProtocol(s, port, DEFERRED), id) == LacpProtocol(s, port, id)
    ensures forall e | e in LacpEntries(s, port, links, DEFERRED) :: Allocatable(e)
    ensures forall e | e in LacpEntries(s, port, links, id) :: NoReplace(e)
  {
  }

  /** What the driver builds with the marker holds, after the allocation, the one id as the
      aggregate's name, in its configuration, in every member's reference, and in the LACP
      entry and its configuration. No marker is left anywhere if and only if the id is not
      the marker and no switch port is itself called like it. */
  lemma DeferredResolved(s: Settings, port: Port, links: seq<string>, id: string)
    ensures var es, l := LacpEntries(s, port, links, DEFERRED), AllocatedLacp(LacpProtocol(s, port, DEFERRED), id);
            && |es| == |links| + 1
            && (forall i | 0 <= i < |links| :: Allocated(es[i], id).Ethernet? && Allocated(es[i], id).ethernet.Some?
                                               && Allocated(es[i], id).ethernet.value.aggregateId == Some(id))
            && Allocated(es[|links|], id).name == id
            && Allocated(es[|links|], id).config.Some? && Allocated(es[|links|], id).config.value.name == Some(id)
            && l.name == id && l.config.Some? && l.config.value.name == id
    ensures Unmarked(AllocatedList(LacpEntries(s, port, links, DEFERRED), id),
              AllocatedLacpList([LacpProtocol(s, port, DEFERRED)], id))
       <==> id != DEFERRED && forall n | n in Each(links, s.rename) :: n != DEFERRED
  {
    AllocatedEntries(s, port, links, id);
    MarkersLeft(LacpEntries(s, port, links, DEFERRED), [LacpProtocol(s, port, DEFERRED)], id);
    WhereMarked(s, port, links);
  }

  lemma WhereMarked(s: Settings, port: Port, links: seq<string>)
    ensures (forall e | e in LacpEntries(s, port, links, DEFERRED) :: !Overlooked(e))
              <==> forall n | n in Each(links, s.rename) :: n != DEFERRED
    ensures !Unmarked(LacpEntries(s, port, links, DEFERRED), [LacpProtocol(s, port, DEFERRED)])
    ensures forall l | l in [LacpProtocol(s, port, DEFERRED)] :: !OverlookedLacp(l)
  {
    var es, names := LacpEntries(s, port, links, DEFERRED), Each(links, s.rename);
    assert es[|links|] in es && Marked(es[|links|]) && !Overlooked(es[|links|]);
    forall i | 0 <= i < |links| ensures Overlooked(es[i]) <==> names[i] == DEFERRED {
      assert es[i] == LacpLink(s, port, DEFERRED, links[i]);
    }
    hide Overlooked, Marked, LacpEntries, LacpLink, Each;
    forall n | n in names && (forall e | e in es :: !Overlooked(e)) ensures n != DEFERRED {
      var i :| 0 <= i < |links| && n == names[i];
      assert es[i] in es;
    }
    forall e | e in es && (forall n | n in names :: n != DEFERRED) ensures !Overlooked(e) {
      var i :| 0 <= i <= |links| && e == es[i];
      if i < |links| { assert names[i] in names; }
    }
  }
}
