/** The configuration objects the NETCONF driver builds and edits in place, the
    deferred aggregate id, and the choice of a free one. */
module ConfigObjects {
  import opened Wrappers
  import opened Names
  import opened OpenConfig

  // ----- Objects -------------------------------------------------------------------

  class Interface {
    const aggregate: bool
    var name: string
    var operation: Op
    var config: Option<ConfigGroup>
    var ethernet: Option<EthernetGroup>
    var aggregation: Option<AggregationGroup>

    constructor (name: string, aggregate: bool)
      ensures Value() == NewEntry(name, aggregate)
      ensures this.aggregate == aggregate
    {
      this.name, this.aggregate, operation := name, aggregate, Merge;
      config := Some(ConfigGroup(Merge, None, None, None, None));
      ethernet := Some(EthernetGroup(Merge, None, Some(SwitchedVlan(Merge, None, None))));
      aggregation := Some(AggregationGroup(Merge, None, None, Some(SwitchedVlan(Merge, None, None))));
    }

    function Value(): Entry
      reads this
    {
      if aggregate then Aggregate(name, operation, config, aggregation) else Ethernet(name, config, ethernet)
    }
  }

  /** An interface as it is added to the list. */
  function NewEntry(name: string, aggregate: bool): Entry {
    var config := Some(ConfigGroup(Merge, None, None, None, None));
    var vlan := Some(SwitchedVlan(Merge, None, None));
    if aggregate then Aggregate(name, Merge, config, Some(AggregationGroup(Merge, None, None, vlan)))
    else Ethernet(name, config, Some(EthernetGroup(Merge, None, vlan)))
  }

  class Interfaces {
    var items: seq<Interface>

    ghost predicate Valid()
      reads this
    {
      forall i, j | 0 <= i < j < |items| :: items[i] != items[j]
    }

    function Entries(): (r: seq<Entry>)
      reads this, items
      ensures |r| == |items| && forall i | 0 <= i < |r| :: r[i] == items[i].Value()
    {
      seq(|items|, i requires 0 <= i < |items| reads this, items => items[i].Value())
    }

    constructor ()
      ensures Valid() && items == []
    {
      items := [];
    }

    method Add(name: string, aggregate: bool) returns (iface: Interface)
      requires Valid()
      modifies this
      ensures Valid() && fresh(iface) && items == old(items) + [iface]
      ensures iface.Value() == NewEntry(name, aggregate) && iface.aggregate == aggregate
    {
      iface := new Interface(name, aggregate);
      items := items + [iface];
    }
  }

  class LacpInterface {
    var name: string
    var operation: Op
    var config: Option<LacpConfig>

    constructor (name: string)
      ensures Value() == LacpEntry(name, Merge, Some(LacpConfig(Merge, name, Some("SLOW"), "ACTIVE")))
    {
      this.name, operation := name, Merge;
      config := Some(LacpConfig(Merge, name, Some("SLOW"), "ACTIVE"));
    }

    function Value(): LacpEntry
      reads this
    {
      LacpEntry(name, operation, config)
    }

    /** The name in the configuration refers to this one and follows it. */
    method SetName(value: string)
      modifies this
      ensures name == value && operation == old(operation)
      ensures config == if old(config).Some? then Some(old(config).value.(name := value)) else None
    {
      name := value;
      if config.Some? {
        config := Some(config.value.(name := value));
      }
    }
  }

  class Lacp {
    var items: seq<LacpInterface>

    ghost predicate Valid()
      reads this
    {
      forall i, j | 0 <= i < j < |items| :: items[i] != items[j]
    }

    function Entries(): (r: seq<LacpEntry>)
      reads this, items
      ensures |r| == |items| && forall i | 0 <= i < |r| :: r[i] == items[i].Value()
    {
      seq(|items|, i requires 0 <= i < |items| reads this, items => items[i].Value())
    }

    constructor ()
      ensures Valid() && items == []
    {
      items := [];
    }

    method Add(name: string) returns (iface: LacpInterface)
      requires Valid()
      modifies this
      ensures Valid() && fresh(iface) && items == old(items) + [iface]
      ensures iface.Value() == LacpEntry(name, Merge, Some(LacpConfig(Merge, name, Some("SLOW"), "ACTIVE")))
    {
      iface := new LacpInterface(name);
      items := items + [iface];
    }
  }

  // ----- Deferred aggregate ids --------------------------------------------------------

  function Resolve(name: string, id: string): string {
    if name == DEFERRED then id else name
  }

  /** An entry with the marker replaced where the driver puts it. */
  function Allocated(e: Entry, id: string): Entry {
    match e
    case Ethernet(name, config, Some(eth)) =>
      Ethernet(name, config,
          Some(eth.(aggregateId := if eth.aggregateId == Some(DEFERRED) then Some(id) else eth.aggregateId)))
    case Ethernet(_, _, None) => e
    case Aggregate(name, op, config, aggregation) =>
      Aggregate(Resolve(name, id), op,
                if config.Some? && config.value.name == Some(DEFERRED) then Some(config.value.(name := Some(id)))
                    else config,
                aggregation)
  }

  function AllocatedLacp(e: LacpEntry, id: string): LacpEntry {
    if e.name != DEFERRED then e
    else LacpEntry(id, e.op, if e.config.Some? then Some(e.config.value.(name := id)) else None)
  }

  /** The groups the code looks into are there. */
  predicate Allocatable(e: Entry) {
    match e
    case Ethernet(_, _, ethernet) => ethernet.Some?
    case Aggregate(_, _, config, _) => config.Some?
  }

  function AllocatedList(es: seq<Entry>, id: string): (r: seq<Entry>)
    ensures |r| == |es| && forall i | 0 <= i < |es| :: r[i] == Allocated(es[i], id)
  {
    if es == [] then [] else [Allocated(es[0], id)] + AllocatedList(es[1..], id)
  }

  function AllocatedLacpList(ls: seq<LacpEntry>, id: string): (r: seq<LacpEntry>)
    ensures |r| == |ls| && forall i | 0 <= i < |ls| :: r[i] == AllocatedLacp(ls[i], id)
  {
    if ls == [] then [] else [AllocatedLacp(ls[0], id)] + AllocatedLacpList(ls[1..], id)
  }

  /** Some name or reference in the entry is the marker. */
  predicate Marked(e: Entry) {
    || e.name == DEFERRED
    || (e.config.Some? && e.config.value.name == Some(DEFERRED))
    || (e.Ethernet? && e.ethernet.Some? && e.ethernet.value.aggregateId == Some(DEFERRED))
  }

  predicate MarkedLacp(e: LacpEntry) {
    e.name == DEFERRED || (e.config.Some? && e.config.value.name == DEFERRED)
  }

  predicate Unmarked(es: seq<Entry>, ls: seq<LacpEntry>) {
    (forall e | e in es :: !Marked(e)) && (forall l | l in ls :: !MarkedLacp(l))
  }

  /** A marker where the driver does not look: the name of a port, or the configured name
      of an LACP entry that is not itself called like the marker. */
  predicate Overlooked(e: Entry) {
    e.Ethernet? && (e.name == DEFERRED || (e.config.Some? && e.config.value.name == Some(DEFERRED)))
  }

  predicate OverlookedLacp(e: LacpEntry) {
    e.name != DEFERRED && e.config.Some? && e.config.value.name == DEFERRED
  }

  lemma MarkedAfter(e: Entry, id: string)
    requires Allocatable(e)
    ensures Marked(Allocated(e, id)) <==> Overlooked(e) || (id == DEFERRED && Marked(e))
  {
  }

  lemma MarkedLacpAfter(l: LacpEntry, id: string)
    ensures MarkedLacp(AllocatedLacp(l, id)) <==> OverlookedLacp(l) || (id == DEFERRED && MarkedLacp(l))
  {
  }

  lemma {:induction false} EntriesLeft(es: seq<Entry>, id: string)
    requires forall e | e in es :: Allocatable(e)
    ensures (forall e | e in AllocatedList(es, id) :: !Marked(e))
       <==> (forall e | e in es :: !Overlooked(e)) && (id != DEFERRED || forall e | e in es :: !Marked(e))
  {
    hide Marked, Overlooked, Allocated, Allocatable;
    if es != [] {
      MarkedAfter(es[0], id);
      EntriesLeft(es[1..], id);
      assert es == [es[0]] + es[1..];
    }
  }

  lemma {:induction false} LacpLeft(ls: seq<LacpEntry>, id: string)
    ensures (forall l | l in AllocatedLacpList(ls, id) :: !MarkedLacp(l))
       <==> (forall l | l in ls :: !OverlookedLacp(l)) && (id != DEFERRED || forall l | l in ls :: !MarkedLacp(l))
  {
    hide MarkedLacp, OverlookedLacp, AllocatedLacp;
    if ls != [] {
      MarkedLacpAfter(ls[0], id);
      LacpLeft(ls[1..], id);
      assert ls == [ls[0]] + ls[1..];
    }
  }

  /** Whatever the objects are: the allocation leaves no marker if and only if none stands
      where the driver does not look, and the id is not itself the marker where one stands
      elsewhere. */
  lemma MarkersLeft(es: seq<Entry>, ls: seq<LacpEntry>, id: string)
    requires forall e | e in es :: Allocatable(e)
    ensures Unmarked(AllocatedList(es, id), AllocatedLacpList(ls, id))
       <==> && (forall e | e in es :: !Overlooked(e)) && (forall l | l in ls :: !OverlookedLacp(l))
            && (id != DEFERRED || Unmarked(es, ls))
  {
    hide Marked, MarkedLacp, Overlooked, OverlookedLacp, Allocatable;
    EntriesLeft(es, id);
    LacpLeft(ls, id);
  }

  method AllocateDeferred(id: string, ifaces: Interfaces, lacp: Lacp)
    requires ifaces.Valid() && lacp.Valid() && forall e | e in ifaces.Entries() :: Allocatable(e)
    modifies ifaces.items, lacp.items
    ensures |ifaces.Entries()| == |old(ifaces.Entries())| && |lacp.Entries()| == |old(lacp.Entries())|
    ensures ifaces.Entries() == AllocatedList(old(ifaces.Entries()), id)
    ensures lacp.Entries() == AllocatedLacpList(old(lacp.Entries()), id)
  {
    hide AllocatedList, AllocatedLacpList;
    for i := 0 to |ifaces.items|
      modifies ifaces.items
      invariant forall j | 0 <= j < i :: ifaces.items[j].Value() == Allocated(old(ifaces.items[j].Value()), id)
      invariant forall j | i <= j < |ifaces.items| :: ifaces.items[j].Value() == old(ifaces.items[j].Value())
    {
      var iface := ifaces.items[i];
      assert iface.Value() == old(ifaces.Entries())[i] && old(ifaces.Entries())[i] in old(ifaces.Entries());
      if iface.aggregate {
        if iface.name == DEFERRED {
          iface.name := id;
        }
        if iface.config.value.name == Some(DEFERRED) {
          iface.config := Some(iface.config.value.(name := Some(id)));
        }
      } else if iface.ethernet.value.aggregateId == Some(DEFERRED) {
        iface.ethernet := Some(iface.ethernet.value.(aggregateId := Some(id)));
      }
    }
    for i := 0 to |lacp.items|
      modifies lacp.items
      invariant forall j | 0 <= j < i :: lacp.items[j].Value() == AllocatedLacp(old(lacp.items[j].Value()), id)
      invariant forall j | i <= j < |lacp.items| :: lacp.items[j].Value() == old(lacp.items[j].Value())
    {
      if lacp.items[i].name == DEFERRED {
        lacp.items[i].SetName(id);
      }
    }
  }

  // ----- Choosing a free id ------------------------------------------------------------

  function AggregationIds(prefix: string, lo: nat, hi: nat): set<string> {
    set x | lo <= x <= hi :: prefix + Decimal(x)
  }

  lemma {:induction false} AggregationIdsCount(prefix: string, lo: nat, hi: nat)
    requires lo <= hi + 1
    ensures |AggregationIds(prefix, lo, hi)| == hi - lo + 1
    decreases hi - lo + 1
  {
    if lo <= hi {
      var rest := AggregationIds(prefix, lo + 1, hi);
      AggregationIdsCount(prefix, lo + 1, hi);
      forall x | lo + 1 <= x <= hi ensures prefix + Decimal(x) != prefix + Decimal(lo) {
        if prefix + Decimal(x) == prefix + Decimal(lo) {
          assert (prefix + Decimal(x))[|prefix|..] == Decimal(x) && (prefix + Decimal(lo))[|prefix|..] == Decimal(lo);
          DecimalInjective(x, lo);
        }
      }
      assert AggregationIds(prefix, lo, hi) == rest + {prefix + Decimal(lo)};
    }
  }

  predicate IsInterfaceName(p: Path) {
    |p| == 3 && p[0] == Tag("interfaces") && p[1].name == "interface" && p[2] == Tag("name")
  }

  /** The interface names on the device. */
  function InterfaceNames(c: Config): set<string> {
    set p | p in c && IsInterfaceName(p) :: c[p]
  }

  /** A free id of the range, in the names the device lists; None when the range is used up. */
  method GetFreeAggregateId(c: Config, prefix: string, lo: nat, hi: nat) returns (r: Option<string>)
    ensures r.Some? ==> r.value in AggregationIds(prefix, lo, hi) && r.value !in InterfaceNames(c)
    ensures r.None? <==> AggregationIds(prefix, lo, hi) <= InterfaceNames(c)
  {
    var used := set n | n in InterfaceNames(c) && StartsWith(n, prefix);
    var available := AggregationIds(prefix, lo, hi) - used;
    assert forall n | n in AggregationIds(prefix, lo, hi) :: StartsWith(n, prefix);
    assert forall n | n in AggregationIds(prefix, lo, hi) :: n in InterfaceNames(c) <==> n !in available;
    if available == {} { return None; }
    var id := Pick(available);
    return Some(id);
  }

  /** There is one whenever the device uses fewer ids of the range than it holds. */
  lemma FreeIdExists(c: Config, prefix: string, lo: nat, hi: nat)
    requires lo <= hi
    ensures |InterfaceNames(c) * AggregationIds(prefix, lo, hi)| < hi - lo + 1
       <==> !(AggregationIds(prefix, lo, hi) <= InterfaceNames(c))
  {
    AggregationIdsCount(prefix, lo, hi);
    var ids, names := AggregationIds(prefix, lo, hi), InterfaceNames(c);
    if ids <= names {
      assert names * ids == ids;
    } else {
      var id :| id in ids && id !in names;
      SubsetSmaller(names * ids, ids, id);
    }
  }

  lemma SubsetSmaller(a: set<string>, b: set<string>, x: string)
    requires a <= b && x in b && x !in a
    ensures |a| < |b|
  {
    assert |b - a| > 0 && b == a + (b - a) by { assert x in b - a; }
  }
}
